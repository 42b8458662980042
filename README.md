# Iris species serving handler — a Dafny model

This project models the serving side of a small Iris classifier deployed as a
cloud function (`main.py`). Three pieces of logic are modelled:

- the process-wide, write-once model cache behind `load_model_from_s3`;
- reading a request: the JSON body or the event itself, four named
  measurements defaulting to 0, and the `any(f <= 0 ...)` positivity check;
- building the response: the label lookup, the label→probability mapping, the
  confidence as the maximum probability, and the mapping of every exception
  to status 500.

The object store, `pickle.load`, the JSON decoder and the scikit-learn
classifier are collaborators that the model does not see into:

- One call of the store read plus unpickling is an input value
  `outcome: Result<Estimator, string>`. `Cache.Load` consults it only when the
  cache is empty.
- The JSON decoder is a function parameter `parse: string -> Result<Value, string>`.
- The classifier is a datatype `Estimator` holding its two batch operations
  (`predict`, `predict_proba`) as functions that answer or raise with a message.

Modules: `Json` (decoded values and Python's view of them), `Errors` (the
result type, the faults and their messages), `Inference` (`predict`),
`ModelCache` (the cache as a class, plus a pure step function for runs of
calls), `Request` (body, features, check), `Reply` (success body) and
`Handler` (the whole invocation).

Choices that follow the code rather than its description:

- The model is loaded before the request is read (main.py:77). So a load
  failure answers 500 even for a request that would have been rejected.
- `any(f <= 0 for f in features)` goes left to right and stops at the first
  value that decides it. A value that is not a number raises `TypeError`, and
  the answer is 500. That happens only when such a value comes before any
  value at most zero. So "a non-positive or absent feature gives 400" holds
  only when no earlier feature is non-numeric (`NonPositiveFeatureRejected`).
- JSON `true`/`false` compare as 1/0, as Python's `bool` does.

## Model

| member | source | states |
|---|---|---|
| `ModelCache.Cache.constructor` | main.py:13-14 | a new process starts with no model cached and no store read done |
| `ModelCache.Cache.Load` | main.py:16-55 | a held model is returned without a store read; on an empty cache exactly one read is made, a success is kept and returned, a failure is returned and leaves the cache empty; the count of reads that delivered a model goes up only on a cold success and never exceeds one |
| `ModelCache.LoadStep` | main.py:16-55 | the same step as a function: a held model is returned with no fetch; an empty cache fetches, keeps a success, stays empty on failure, and passes the outcome on |
| `ModelCache.WarmRunNeverFetches` | main.py:20-22 | once a model is held, any number of further calls make zero store reads and keep that same model |
| `ModelCache.ColdRunFetchesUntilFirstSuccess` | main.py:43-55 | from a cold start, every failed load is retried by the next call, and the first success is the last fetch: fetches = leading failures + 1, and the cache then holds that model |
| `ModelCache.AtMostOneLoad` | main.py:20-51 | over any run of calls at most one store read delivers a model, and none does when a model is already held |
| `Inference.Predict` | main.py:57-65 | the features go to the classifier as a one-row batch, class prediction first; row 0 of the class answer and of the probability answer come back; either operation raising passes on its message, and an empty answer from either raises IndexError |
| `Request.Decode` | main.py:80-83 | with a `body` key the body is that text decoded as JSON (a decoder error or a non-text body is a fault); without it the body is the event itself |
| `Request.ReadFeatures` | main.py:87-92 | a dict body gives exactly four values in the order sepal_length, sepal_width, petal_length, petal_width, each absent key giving 0; any other body has no `get` |
| `Request.Screen` | main.py:96 | the check passes exactly when all values are numbers above zero, and then yields those numbers; otherwise it reports the first value that is not a positive number: rejection if it is a number, a comparison failure naming it if not |
| `Request.ScreenStopsAtFirstOffender` | main.py:96-102 | after a prefix of positive numbers, the next value decides: a number at most zero rejects, a non-number raises |
| `Reply.MaxOf` | main.py:126 | `max` gives one of the probabilities, and none is larger |
| `Reply.LabelProbabilities` | main.py:122-125 | the mapping binds label i to probability i for every i, and has exactly those labels as keys |
| `Reply.ConfidenceIsLargestProbability` | main.py:122-126 | the confidence is the probability of some label, and no label's probability exceeds it |
| `Reply.Build` | main.py:113-127 | a body is built exactly when the class index names a label and there are 1 to 3 probabilities; it has the label of that class, the class index, exactly the first as many labels as there are probabilities as keys with probability i under label i, and `max` of the probabilities as confidence, which is the largest value in the mapping; a bad index or too many probabilities raise IndexError, none raise ValueError |
| `Errors.Describe` | main.py:141 | the text `str(e)` of each fault: messages of the loader, the JSON decoder and the classifier are passed on unchanged; Python's own faults give a non-empty text that names the offending type where Python's does |
| `Handler.Serve` | main.py:74-134 | the `try` block: a failed load is the first fault; then a decoding or `get` fault; the answer is a rejection exactly when the check meets a number at most zero first; a non-number met first is a comparison fault naming its type; once the check passes, the result is the classifier's fault, else the fault of building the body, else the built answer |
| `Handler.Respond` | main.py:74-143 | the handler is total: status is 200, 400 or 500; 200 exactly when the body is a prediction, and then it is the answer of the `try` block; 400 exactly when that block ends in rejection, and it always carries the fixed rejection message; 500 exactly when a step raised, with the prefix plus that exception's text |
| `Handler.Handle` | main.py:67-78 | an invocation loads through the process cache, with the effect on cache and fetch count that `Load` states, and answers as `Respond` does on what the load gave |
| `Handler.LoadFailureAnswers500` | main.py:136-143 | when the model cannot be loaded, any request gets 500 with the prefix plus the loader's message |
| `Handler.RejectionIff` | main.py:96-102 | the answer is 400 exactly when the body decodes to a dict and the check meets a value at most zero before any non-number |
| `Handler.RejectionIgnoresClassifier` | main.py:96-110 | a rejected request never reaches the classifier: any other model gives the same 400 |
| `Handler.NonPositiveFeatureRejected` | main.py:80-102 | for any event whose body (decoded JSON text or the event itself) is a dict: after positive numeric features, an absent feature or a number at most zero gives 400 whatever the classifier |
| `Handler.AnswerReportsPrediction` | main.py:110-134 | every 200 comes from four positive numeric features, and reports the classifier's class, its label, every probability under its label, and the maximum as confidence |
| `Handler.UnusablePredictionIs500` | main.py:110-143 | a request that passes the check but whose prediction is unusable gets 500 with the exception's text: the classifier's message when it raises, IndexError for an empty answer, a class index past the labels or more than three probabilities, ValueError for none |
| `Handler.UsableAnswerIs200` | main.py:110-134 | features that pass the check plus a classifier answer with a valid index and 1 to 3 probabilities give 200 |
| `Handler.ZeroSepalLengthRejected` | main.py:87-102 | the request sepal_length 0, sepal_width 3.5, petal_length 1.4, petal_width 0.2 gets 400 with the rejection message |
| `Handler.SetosaAnswered` | main.py:80-134 | a JSON body 5.1, 3.5, 1.4, 0.2 with a classifier answering class 0 at 0.9/0.05/0.05 gets 200 for setosa, class 0, those three probabilities under their labels, confidence 0.9 |

## Left out

- `src/train.py`: fitting and evaluating the classifier and uploading it. This is library and network code with no logic of its own to verify.
- Building the store client and reading the environment (main.py:26-41), including the bucket name and the object key. They only address the store; the read itself is the `outcome` input.
- `pickle.load`, `np.array` and scikit-learn's `predict`/`predict_proba`. They are abstract: the `outcome` input and the `Estimator` functions.
- Probabilities summing to 1, and the predicted class being the most probable one. These are the classifier's promises, not the handler's, so they are not stated.
- Floating point: features and probabilities are reals. JSON `NaN`/`Infinity` (which pass the `<= 0` check in Python) cannot be written.
- The JSON text encoding of responses (`json.dumps`, `ensure_ascii`). Bodies are structured values.
- Python's own exception texts (IndexError, TypeError, AttributeError, ValueError). Each is one fixed text per kind; the real wording differs between Python versions. Texts of the store, unpickling and the JSON decoder are carried as given.
- An unpickled object that is not a classifier (main.py:49): `pickle.load` returning `None`, or an object without `predict`. In Python the cache then stays (or looks) empty or holds that object, and a request that passes the positivity check then fails with AttributeError at main.py:63; a request rejected or failing before that check is answered as modelled. The model's successful `outcome` is always an `Estimator`, so this path cannot be written.
- Bodies that are `bytes`: decoded values have no byte-string variant.
- Python's negative-index wrap-around in the label lookup. The class index is a natural number.
- All `print` logging, and the unused `np.array` at main.py:105.
- Concurrent cold starts: the code has no locking, and each invocation is sequential.
