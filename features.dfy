/** Vocabulary shared by the training script and the inference service:
    the five coffee features, the three quality labels, the valid ranges,
    and the persisted model artifact with its numeric library calls left abstract. */
module Coffee {

  datatype Option<T> = None | Some(value: T)

  /** The three labels the ground-truth rule assigns and the classifier predicts. */
  datatype Quality = Premium | Bueno | Regular

  /** One coffee sample: four sensory scores and the altitude in metres. */
  datatype FeatureVector = FeatureVector(acidity: real, sweetness: real, body: real, aroma: real, altitude: real)

  /** The feature columns selected for training, in order; the artifact stores this list. */
  const FeatureNames: seq<string> := ["acidity", "sweetness", "body", "aroma", "altitude"]

  /** The row handed to the scaler: column j holds the value named FeatureNames[j],
      so the row and the stored name list agree on the order. */
  function ToArray(f: FeatureVector): (v: seq<real>)
    ensures |v| == |FeatureNames|
    ensures forall j :: 0 <= j < |v| ==> FeatureNames[j] in FeaturesDict(f) && v[j] == FeaturesDict(f)[FeatureNames[j]]
  {
    [f.acidity, f.sweetness, f.body, f.aroma, f.altitude]
  }

  /** The same sample as a name-to-value dictionary, as echoed in prediction responses. */
  function FeaturesDict(f: FeatureVector): (d: map<string, real>)
    ensures d.Keys == set name | name in FeatureNames
  {
    map["acidity" := f.acidity, "sweetness" := f.sweetness, "body" := f.body,
        "aroma" := f.aroma, "altitude" := f.altitude]
  }

  /** The range every accepted sample must lie in: the four sensory scores in [1, 10],
      the altitude in [500, 2000], all bounds inclusive. */
  predicate OnScale(x: real) { 1.0 <= x <= 10.0 }

  predicate AltitudeInRange(x: real) { 500.0 <= x <= 2000.0 }

  predicate InRange(f: FeatureVector)
  {
    OnScale(f.acidity) && OnScale(f.sweetness) && OnScale(f.body) && OnScale(f.aroma)
    && AltitudeInRange(f.altitude)
  }

  /** A call into the numeric library either returns a value or raises an exception. */
  datatype Outcome<T> = Value(value: T) | Raised(message: string)

  /** The fitted standard scaler, applied to one row. */
  datatype Scaler = Scaler(transform: seq<real> -> Outcome<seq<real>>)

  /** The fitted random forest: its class list, its predicted label and its
      per-class probability vector for one scaled row. */
  datatype Classifier = Classifier(
    classes: seq<Quality>,
    predict: seq<real> -> Outcome<Quality>,
    predictProba: seq<real> -> Outcome<seq<real>>)

  /** The persisted dictionary {model, scaler, feature_names, accuracy}. */
  datatype ModelData = ModelData(model: Classifier, scaler: Scaler, featureNames: seq<string>, accuracy: real)
}
