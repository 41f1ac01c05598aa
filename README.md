# Coffee quality classifier — a Dafny model

This project models the decidable core of a small coffee quality classifier: a
training script that labels synthetic coffee samples with a fixed scoring rule and
filters outliers, and an HTTP service that loads the trained model once and serves
predictions.

- `features.dfy` (module `Coffee`): the vocabulary both sides share. It holds the five
  features (acidity, sweetness, body, aroma, altitude), the three labels (Premium, Bueno,
  Regular) and the valid ranges. It also holds the fixed column order `FeatureNames`
  and the persisted model dictionary `ModelData`. The fitted scaler and random forest
  appear there as values whose operations are function-typed fields. Each operation
  either returns a value or raises an exception (`Outcome`).
- `training.dfy` (module `Training`): the training script.
  - The score is one point per met criterion. Acidity is checked against the closed
    interval [4.5, 6.0]. Sweetness ≥ 6.0, body ≥ 6.5, aroma ≥ 6.0 and altitude ≥ 1000
    are one-sided. Every bound is inclusive.
  - The score maps to a label.
  - The labelling loop (`QualityLabels`) is proved against the pure `Score`/`Label`
    specification.
  - The outlier filter (`Clean`) is a pure function.
  - The artifact is assembled around an abstract fitting step (`TrainModel`).
- `api.dfy` (module `Api`): the service.
  - A `Server` class holds the process-wide `modelData` (None until a model is loaded)
    and the `LoadModel` method that sets it.
  - The handlers are functions that read that field: `Predict` (form), `PredictJson`,
    `HealthCheck` and `ModelInfo`.
  - The try blocks of the prediction handlers are `PredictBody` and `PredictJsonBody`.
    The catch-all is `Rewrap`.
  - Confidence is the largest entry of the probability vector (`Max`).

Three facts about the program that a reader might not expect:
- The range checks of the form endpoint raise their 400 errors inside the handler's
  `try`, and the catch-all re-raises them as status 500 (see Findings). The tests at
  test_api.py:230-241 expect 400 or 422.
- main.py has no check of the feature names or their number before
  `scaler.transform`, and train_model.py has no guard against a zero-variance feature.
  The model has neither check.
- The confidence is the maximum of whatever `predict_proba` returns. It is guaranteed
  to lie in (0, 1] when that vector is a probability distribution, and the model proves
  the bound under that hypothesis (`Api.ConfidenceOfDistribution`). Without it, the
  confidence is only an entry of the vector that no other entry exceeds.

One observation about the test expectations: the form-endpoint test case "Café Bueno"
(6.0, 6.5, 6.0, 6.8, 1200) meets four criteria under the labelling rule, because the
acidity bound 6.0 is inclusive. The rule labels it Premium (`Training.ReferenceSamples`).
That test targets the learned forest rather than the rule, so this is not a defect in
the rule.

## Model

| member | source | states |
|---|---|---|
| `Coffee.ToArray` | main.py:384 | the row handed to the scaler has five columns, and column j is the value the feature dictionary holds under the j-th name of the fixed column order |
| `Coffee.FeaturesDict` | main.py:363-369 | the echoed dictionary has exactly the five feature names as keys |
| `Training.Count` | train_model.py:31-43 | the number of met tests is at most the number of tests; it equals that number iff all are met and is zero iff none is |
| `Training.CountIsOccurrences` | train_model.py:31-43 | the count equals the number of occurrences of "met" among the tests: one point per met criterion, none otherwise |
| `Training.CountMonotone` | train_model.py:31-43 | meeting a superset of tests never gives a lower count |
| `Training.CountSetOne` | train_model.py:31-43 | turning one unmet test into a met one adds exactly one to the count |
| `Training.Score` | train_model.py:31-43 | the score lies in [0, 5]; it is 5 iff all five criteria hold and 0 iff none holds |
| `Training.ScoreIsSumOfPoints` | train_model.py:31-43 | the score is the sum of the five one-point tests: acidity in [4.5, 6.0], sweetness ≥ 6.0, body ≥ 6.5, aroma ≥ 6.0, altitude ≥ 1000 |
| `Training.ScoreMonotone` | train_model.py:31-43 | a sample meeting every criterion another sample meets scores at least as high |
| `Training.OneMoreCriterion` | train_model.py:31-43 | meeting one more criterion raises the score by exactly one |
| `Training.Label` | train_model.py:46-51 | Premium iff score ≥ 4, Bueno iff 2 ≤ score ≤ 3, Regular iff score ≤ 1; so exactly one label per score |
| `Training.LabelMonotone` | train_model.py:46-51 | a higher score never gets a worse label (Regular < Bueno < Premium) |
| `Training.LabelMonotoneInCriteria` | train_model.py:31-51 | meeting an additional criterion never moves a sample down from Premium, or from Bueno to Regular |
| `Training.ReferenceSamples` | train_model.py:31-51 | (5, 8, 8, 8, 1500) scores 5 and is Premium; (9, 2, 3, 2, 600) scores 0 and is Regular; (6.0, 6.5, 6.0, 6.8, 1200) scores 4 and is Premium |
| `Training.Labelled` | train_model.py:29-61 | the table before cleaning has one row per generated sample, in generation order, holding that sample's values and, as its quality column, the rule's label for that sample's score |
| `Training.QualityLabels` | train_model.py:29-51 | the labelling loop yields one label per sample, in generation order, and label i is the rule's label of sample i's score |
| `Training.Clean` | train_model.py:64-70 | the filter never grows the table; a row is kept iff it is in the table and all four 1-10 features lie in [1, 10] and altitude lies in [500, 2000]; kept rows are unchanged |
| `Training.CleanDistributes` | train_model.py:64-70 | filtering a concatenation is the concatenation of the filtered parts, so relative order is kept |
| `Training.CleanKeepsValid` | train_model.py:64-70 | a table whose rows are all in range passes the filter unchanged |
| `Training.CleanIdempotent` | train_model.py:64-70 | filtering twice is filtering once |
| `Training.CreateCoffeeDataset` | train_model.py:14-72 | the data set is the labelled table after filtering; it has at most 1000 rows; every row is in range and carries the rule's label for its own values |
| `Training.TrainModel` | train_model.py:79-123 | the artifact stores the feature names [acidity, sweetness, body, aroma, altitude] in that order, plus the scaler, the model and the accuracy the library fit on X and y of the cleaned data set |
| `Training.FeatureMatrix` | train_model.py:86 | X has one row per data-set row, each with five columns, and column j of row i is the value row i's sample holds under the j-th feature name |
| `Training.Targets` | train_model.py:87 | y has one entry per data-set row, and entry i is row i's label |
| `Training.TrainingPairsFollowRule` | train_model.py:64-87 | every (x, y) pair handed to the fit comes from an in-range sample, x is that sample's values in feature order, and y is the rule's label for those values |
| `Training.TrainServeAgree` | train_model.py:86 | column j of every training row of X, and column j of the row built at inference, both hold the value named by the artifact's j-th feature name |
| `Api.RangeMessageIdentifiesField` | main.py:373-381 | the five 400 details are pairwise distinct, so a detail identifies the field that failed |
| `Api.FirstInvalid` | main.py:372-381 | no field is rejected iff the sample is in the training filter's range; a rejected field is out of range and every field checked before it (order acidity, sweetness, body, aroma, altitude) is in range |
| `Api.Max` | main.py:392 | the confidence is an entry of the probability vector and no entry exceeds it |
| `Api.SumAtMost` | main.py:392 | a vector whose entries are all at most c sums to at most its length times c |
| `Api.SumAtLeastEntry` | main.py:392 | every entry of a non-negative vector is at most its sum |
| `Api.ConfidenceOfDistribution` | main.py:392 | the largest entry of a probability distribution over n classes is at least 1/n and at most 1, so it lies in (0, 1] |
| `Api.Classify` | main.py:384-392 | the pipeline succeeds iff the scaler, the label prediction and the probability prediction all return and the probability vector is non-empty; then the label is the predicted one and the confidence the vector's maximum; otherwise the error is a library exception |
| `Api.ProducedConfidence` | main.py:389-392 | a confidence produced from a probability distribution lies in (0, 1] |
| `Api.PredictBody` | main.py:361-398 | an out-of-range input raises the 400 error naming the first failing field; an in-range input succeeds iff the library does, and otherwise fails with a library exception; a success echoes the input dictionary and carries the library's label and maximum probability for the row in feature order |
| `Api.PredictJsonBody` | main.py:410-427 | no range checks: any input succeeds iff the library does, the response echoes the input, and every failure is a library exception |
| `Api.RangeErrorDetailIdentifiesField` | main.py:372-401 | on a loaded server, two out-of-range form inputs whose 500 details are equal fail on the same field: the re-wrapped error still tells the client which field failed |
| `Api.Rewrap` | main.py:400-401 | successes pass through unchanged; every exception, the 400 errors included, becomes status 500 with detail "Error en predicción: " followed by the exception's text |
| `Api.RewrapIntended` | main.py:400-401 | corrected catch-all: a 400 error keeps its status and detail; a library exception becomes 500 with the prediction-error prefix |
| `Api.Server.constructor` | main.py:24-68 | the service starts with no model and loads the model file once; afterwards a model is held iff the file held one |
| `Api.Server.LoadModel` | main.py:51-65 | a missing or unloadable file leaves no model; a stored dictionary becomes the loaded model |
| `Api.Server.Predict` | main.py:348-401 | without a model: 503 before any validation; with a model, an out-of-range input gives 500 whose detail is the prefix, "400: " and the first failing field's message; an in-range input succeeds iff the library does; a success echoes the inputs and carries the library's label and maximum probability; every failure after the guard is 500 |
| `Api.Server.PredictIntended` | main.py:358-401 | corrected form endpoint: 503 without a model; 400 with the first failing field's message for out-of-range input; an in-range input succeeds iff the library does, a success echoes the inputs and carries the library's label and maximum probability, and a library failure is 500 with the prediction-error prefix |
| `Api.Server.PredictJson` | main.py:403-430 | without a model: 503; with a model, every input reaches the scaler and succeeds iff the library does; a success echoes the input; every failure is 500 with the prefix |
| `Api.Server.HealthCheck` | main.py:432-439 | status "healthy"; model_loaded iff a model is loaded; model_accuracy is absent exactly when no model is loaded and is the stored accuracy otherwise |
| `Api.Server.ModelInfo` | main.py:441-451 | without a model: 503 "Modelo no disponible"; otherwise the stored feature names, accuracy and class list |
| `Api.RangeErrorSurfacesAs500` | main.py:372-401 | on a loaded server, acidity 15 (other fields valid) is answered 500 with the acidity range message behind the prefix, while the corrected endpoint answers 400 |
| `Api.FormJsonAgree` | main.py:348-430 | for in-range input the form endpoint and the JSON endpoint give the same reply, success or failure |
| `Api.ServedConfidence` | main.py:421 | a successful JSON prediction whose probability vector is a distribution has confidence in (0, 1] |

## Findings

| source | as written | input that shows it | evidently intended | confidence | as-written member | corrected member |
|---|---|---|---|---|---|---|
| main.py:400-401 | the catch-all `except Exception` also catches the 400 errors raised by the range checks at main.py:372-381, so out-of-range input is answered 500 "Error en predicción: 400: …" | acidity 15, sweetness 7, body 6, aroma 7, altitude 1200 on a loaded server (the validation test at test_api.py:210-241 expects 400 or 422) | status 400 with the range message naming the first failing field | high; not executed | `Api.RangeErrorSurfacesAs500` | `Api.Server.PredictIntended` |

## Left out

- Gaussian sampling and the fixed seed of the training script: the five sampled columns are inputs (`Training.Columns`), required to hold 1000 entries each.
- The scaler and random forest internals, the train/test split, accuracy scoring and the classification report: they are opaque library numerics. `Training.Fitter` stands for split-scale-fit-evaluate, and the fitted objects are function-typed fields of `Coffee.Scaler` and `Coffee.Classifier`. The one-row batch and its `[0]` indexing are folded into calls on one row.
- Training failures (a library fit that raises) are not modelled; `TrainModel` always returns an artifact.
- Pickle serialisation and the file-existence check: `Api.ModelFile` gives the outcome of loading (missing, unloadable, stored). A stored dictionary without an accuracy entry, which the load-time log line turns into a failure, counts as unloadable. A stored dictionary is assumed to hold all four entries (model, scaler, feature_names, accuracy). The source also loads a dictionary that lacks the model, the scaler or the feature names, and the health endpoint then reports a loaded model. The outcome depends on the missing key. Without the model, predictions answer 500 with the missing key's error and the model-info endpoint raises an unhandled error. Without the scaler, predictions answer 500 and the model-info endpoint succeeds. Without the feature names, predictions succeed and the model-info endpoint raises. None of that is modelled.
- Floating point: values are reals, so NaN, infinities and rounding are not modelled. With NaN every range comparison is false, so such a value would be rejected by the filter and by the form validation.
- `Api.ExceptionText`: the text of a re-raised HTTP exception is taken as its status code, a colon and its detail. That is the framework's current rendering; other framework versions render it differently, and the framework is not part of this model.
- Api.Server.Predict: for a library exception the contract states status 500 and the prediction-error prefix only. The exact detail text is stated by `Api.Rewrap`.
- Api.Server.PredictIntended: as for `Predict`, a library failure's detail is stated only up to the prefix here, and exactly by `Api.RewrapIntended`.
- Api.Server.PredictJson: as for `Predict`, a library failure's detail is stated only up to the prefix here, and exactly by `Api.Rewrap`.
- Request parsing and type validation by the web framework (422 for non-numeric fields), the routing, the start-up event, the HTML page, logging and the entry points: these are transport and UI plumbing.
- Concurrency: handlers only read the loaded model, and the model is a value here.
- test_api.py is an HTTP test client; it is used only as evidence of expected behaviour.
