/** The inference service: the process-wide loaded model, the availability guard,
    the ordered range validation of the form endpoint, the catch-all that turns every
    exception into status 500, and the confidence taken as the largest class probability. */
module Api {
  import opened Coffee

  /** An HTTP reply: a body, or an error status with its detail text. */
  datatype Response<T> = Success(body: T) | HttpError(status: int, detail: string)

  /** The body of a successful prediction: label, confidence and the echoed features. */
  datatype PredictionResponse = PredictionResponse(quality: Quality, confidence: real, features: map<string, real>)

  /** The body of the health endpoint. */
  datatype Health = Health(status: string, modelLoaded: bool, modelAccuracy: Option<real>)

  /** The body of the model-info endpoint. */
  datatype Info = Info(features: seq<string>, accuracy: real, classes: seq<Quality>)

  /** What a prediction handler's try block can raise: one of its own 400 errors, or
      an exception from the numeric library. */
  datatype Exception = BadRequest(detail: string) | LibraryError(message: string)

  datatype Result<T> = Ok(value: T) | Err(error: Exception)

  const Unavailable: string := "Modelo no disponible. Entrena el modelo primero."
  const InfoUnavailable: string := "Modelo no disponible"
  const PredictionErrorPrefix: string := "Error en predicción: "
  const EmptyMaxMessage: string := "max() arg is an empty sequence"

  /** The text of an exception as it is interpolated into an error detail; an HTTP
      exception reads as its status code, a colon and its detail. */
  function ExceptionText(e: Exception): (text: string)
    ensures e.BadRequest? ==> "400: " <= text && text[|"400: "|..] == e.detail
    ensures e.LibraryError? ==> text == e.message
  {
    match e
    case BadRequest(detail) => "400: " + detail
    case LibraryError(message) => message
  }

  // ---------------------------------------------------------------------------
  // Range validation of the form endpoint
  // ---------------------------------------------------------------------------

  datatype Field = Acidity | Sweetness | Body | Aroma | Altitude

  /** The order in which the form endpoint checks its inputs. */
  const ValidationOrder: seq<Field> := [Acidity, Sweetness, Body, Aroma, Altitude]

  function Position(k: Field): (i: nat)
    ensures i < |ValidationOrder| && ValidationOrder[i] == k
  {
    match k
    case Acidity => 0
    case Sweetness => 1
    case Body => 2
    case Aroma => 3
    case Altitude => 4
  }

  function ValueOf(f: FeatureVector, k: Field): real
  {
    match k
    case Acidity => f.acidity
    case Sweetness => f.sweetness
    case Body => f.body
    case Aroma => f.aroma
    case Altitude => f.altitude
  }

  predicate FieldValid(f: FeatureVector, k: Field)
  {
    if k == Altitude then AltitudeInRange(f.altitude) else OnScale(ValueOf(f, k))
  }

  function RangeMessage(k: Field): string
  {
    match k
    case Acidity => "Acidez debe estar entre 1 y 10"
    case Sweetness => "Dulzura debe estar entre 1 y 10"
    case Body => "Cuerpo debe estar entre 1 y 10"
    case Aroma => "Aroma debe estar entre 1 y 10"
    case Altitude => "Altitud debe estar entre 500 y 2000 metros"
  }

  /** The five range messages are pairwise distinct, so an error detail names the field
      that failed. */
  lemma RangeMessageIdentifiesField(k1: Field, k2: Field)
    ensures RangeMessage(k1) == RangeMessage(k2) ==> k1 == k2
  {
  }

  /** The field the form endpoint rejects: the first out-of-range one in validation order.
      There is none exactly when the sample lies in the range the training filter keeps. */
  function FirstInvalid(f: FeatureVector): (r: Option<Field>)
    ensures r.None? <==> InRange(f)
    ensures r.Some? ==> !FieldValid(f, r.value)
    ensures r.Some? ==> forall j :: 0 <= j < Position(r.value) ==> FieldValid(f, ValidationOrder[j])
  {
    if !(1.0 <= f.acidity <= 10.0) then Some(Acidity)
    else if !(1.0 <= f.sweetness <= 10.0) then Some(Sweetness)
    else if !(1.0 <= f.body <= 10.0) then Some(Body)
    else if !(1.0 <= f.aroma <= 10.0) then Some(Aroma)
    else if !(500.0 <= f.altitude <= 2000.0) then Some(Altitude)
    else None
  }

  // ---------------------------------------------------------------------------
  // Confidence
  // ---------------------------------------------------------------------------

  predicate IsMax(c: real, p: seq<real>)
  {
    c in p && forall i :: 0 <= i < |p| ==> p[i] <= c
  }

  /** The largest entry of a non-empty vector. */
  function Max(p: seq<real>): (m: real)
    requires |p| > 0
    ensures IsMax(m, p)
  {
    if |p| == 1 then p[0]
    else
      var rest := Max(p[1..]);
      if p[0] >= rest then p[0] else rest
  }

  function Sum(p: seq<real>): real
  {
    if p == [] then 0.0 else p[0] + Sum(p[1..])
  }

  /** A probability vector: non-negative entries summing to one. */
  predicate Distribution(p: seq<real>)
  {
    (forall i :: 0 <= i < |p| ==> 0.0 <= p[i]) && Sum(p) == 1.0
  }

  lemma {:induction false} SumAtMost(p: seq<real>, c: real)
    requires forall i :: 0 <= i < |p| ==> p[i] <= c
    ensures Sum(p) <= |p| as real * c
  {
    if p != [] {
      SumAtMost(p[1..], c);
    }
  }

  lemma {:induction false} SumAtLeastEntry(p: seq<real>, k: nat)
    requires k < |p| && forall i :: 0 <= i < |p| ==> 0.0 <= p[i]
    ensures p[k] <= Sum(p)
  {
    if k > 0 {
      SumAtLeastEntry(p[1..], k - 1);
    } else if |p| > 1 {
      SumAtLeastEntry(p[1..], 0);
    }
  }

  /** The largest probability of a distribution over n classes lies in [1/n, 1], so it
      is positive and at most one. */
  lemma ConfidenceOfDistribution(p: seq<real>, c: real)
    requires IsMax(c, p) && Distribution(p)
    ensures |p| as real * c >= 1.0
    ensures 0.0 < c <= 1.0
  {
    SumAtMost(p, c);
    var k :| 0 <= k < |p| && p[k] == c;
    SumAtLeastEntry(p, k);
  }

  // ---------------------------------------------------------------------------
  // The library pipeline on one row
  // ---------------------------------------------------------------------------

  /** The scaler accepts the row and the classifier gives a label and a non-empty
      probability vector for the scaled row. */
  predicate PipelineSucceeds(m: ModelData, row: seq<real>)
  {
    m.scaler.transform(row).Value?
    && var scaled := m.scaler.transform(row).value;
    m.model.predict(scaled).Value? && m.model.predictProba(scaled).Value?
    && |m.model.predictProba(scaled).value| > 0
  }

  /** The label q and the confidence c are what the library gives for the row:
      q the predicted label, c the largest class probability. */
  predicate Produces(m: ModelData, row: seq<real>, q: Quality, c: real)
  {
    PipelineSucceeds(m, row)
    && var scaled := m.scaler.transform(row).value;
    m.model.predict(scaled).value == q && IsMax(c, m.model.predictProba(scaled).value)
  }

  /** Scale the row, predict the label and the probabilities, take the largest probability. */
  function Classify(m: ModelData, row: seq<real>): (r: Result<(Quality, real)>)
    ensures r.Ok? <==> PipelineSucceeds(m, row)
    ensures r.Ok? ==> Produces(m, row, r.value.0, r.value.1)
    ensures r.Err? ==> r.error.LibraryError?
  {
    match m.scaler.transform(row)
    case Raised(e) => Err(LibraryError(e))
    case Value(scaled) =>
      match m.model.predict(scaled)
      case Raised(e) => Err(LibraryError(e))
      case Value(q) =>
        match m.model.predictProba(scaled)
        case Raised(e) => Err(LibraryError(e))
        case Value(p) =>
          if |p| == 0 then Err(LibraryError(EmptyMaxMessage)) else Ok((q, Max(p)))
  }

  /** A successful prediction whose library probabilities form a distribution has a
      confidence in (0, 1]. */
  lemma ProducedConfidence(m: ModelData, row: seq<real>, q: Quality, c: real)
    requires Produces(m, row, q, c)
    requires Distribution(m.model.predictProba(m.scaler.transform(row).value).value)
    ensures 0.0 < c <= 1.0
  {
    ConfidenceOfDistribution(m.model.predictProba(m.scaler.transform(row).value).value, c);
  }

  // ---------------------------------------------------------------------------
  // The try blocks of the prediction handlers
  // ---------------------------------------------------------------------------

  /** The form handler's try block: validate in order, then classify the row in
      feature order and echo the inputs. */
  function PredictBody(m: ModelData, f: FeatureVector): (r: Result<PredictionResponse>)
    ensures !InRange(f) ==> r == Err(BadRequest(RangeMessage(FirstInvalid(f).value)))
    ensures InRange(f) ==> (r.Ok? <==> PipelineSucceeds(m, ToArray(f)))
    ensures InRange(f) && r.Err? ==> r.error.LibraryError?
    ensures r.Ok? ==> (InRange(f) && r.value.features == FeaturesDict(f)
      && Produces(m, ToArray(f), r.value.quality, r.value.confidence))
  {
    match FirstInvalid(f)
    case Some(k) => Err(BadRequest(RangeMessage(k)))
    case None =>
      match Classify(m, ToArray(f))
      case Ok((q, c)) => Ok(PredictionResponse(q, c, FeaturesDict(f)))
      case Err(e) => Err(e)
  }

  /** The JSON handler's try block: no range checks, every input reaches the scaler. */
  function PredictJsonBody(m: ModelData, f: FeatureVector): (r: Result<PredictionResponse>)
    ensures r.Ok? <==> PipelineSucceeds(m, ToArray(f))
    ensures r.Ok? ==> (r.value.features == FeaturesDict(f)
      && Produces(m, ToArray(f), r.value.quality, r.value.confidence))
    ensures r.Err? ==> r.error.LibraryError?
  {
    match Classify(m, ToArray(f))
    case Ok((q, c)) => Ok(PredictionResponse(q, c, FeaturesDict(f)))
    case Err(e) => Err(e)
  }

  /** The catch-all: every exception, the handler's own 400 errors included,
      becomes status 500 with the prediction-error prefix. */
  function Rewrap(r: Result<PredictionResponse>): (response: Response<PredictionResponse>)
    ensures response.Success? <==> r.Ok?
    ensures r.Ok? ==> response.body == r.value
    ensures r.Err? ==> (response.status == 500
      && response.detail == PredictionErrorPrefix + ExceptionText(r.error))
    ensures response.HttpError? ==> PredictionErrorPrefix <= response.detail
  {
    match r
    case Ok(v) => Success(v)
    case Err(e) => HttpError(500, PredictionErrorPrefix + ExceptionText(e))
  }

  /** The catch-all as evidently intended: HTTP exceptions raised inside the try keep
      their own status, every other exception becomes 500. */
  function RewrapIntended(r: Result<PredictionResponse>): (response: Response<PredictionResponse>)
    ensures response.Success? <==> r.Ok?
    ensures r.Ok? ==> response.body == r.value
    ensures r.Err? && r.error.BadRequest? ==> response == HttpError(400, r.error.detail)
    ensures r.Err? && r.error.LibraryError? ==> (response.status == 500
      && response.detail == PredictionErrorPrefix + r.error.message)
  {
    match r
    case Ok(v) => Success(v)
    case Err(BadRequest(detail)) => HttpError(400, detail)
    case Err(LibraryError(message)) => HttpError(500, PredictionErrorPrefix + message)
  }

  // ---------------------------------------------------------------------------
  // The service and its process-wide model
  // ---------------------------------------------------------------------------

  /** What loading the model file finds: no file, a file that fails to load, or the
      stored dictionary. */
  datatype ModelFile = Missing | Unreadable(error: string) | Stored(data: ModelData)

  class Server {
    /** The loaded model dictionary, None while no model is available. */
    var modelData: Option<ModelData>

    /** Start-up: the global starts empty and the model file is loaded once. */
    constructor (file: ModelFile)
      ensures file.Stored? ==> modelData == Some(file.data)
      ensures !file.Stored? ==> modelData.None?
    {
      modelData := None;
      new;
      LoadModel(file);
    }

    /** A missing or unloadable file leaves no model; otherwise the stored dictionary is held. */
    method LoadModel(file: ModelFile)
      modifies this
      ensures file.Stored? ==> modelData == Some(file.data)
      ensures !file.Stored? ==> modelData.None?
    {
      match file
      case Stored(data) =>
        modelData := Some(data);
      case Missing =>
        modelData := None;
      case Unreadable(_) =>
        modelData := None;
    }

    /** The form endpoint as written: the availability guard, then the try block whose
        every exception, range errors included, surfaces as status 500. */
    function Predict(acidity: real, sweetness: real, body: real, aroma: real, altitude: real): (r: Response<PredictionResponse>)
      reads this
      ensures modelData.None? ==> r == HttpError(503, Unavailable)
      ensures var f := FeatureVector(acidity, sweetness, body, aroma, altitude);
        modelData.Some? && !InRange(f) ==>
          r == HttpError(500, PredictionErrorPrefix + ("400: " + RangeMessage(FirstInvalid(f).value)))
      ensures var f := FeatureVector(acidity, sweetness, body, aroma, altitude);
        modelData.Some? && InRange(f) ==> (r.Success? <==> PipelineSucceeds(modelData.value, ToArray(f)))
      ensures var f := FeatureVector(acidity, sweetness, body, aroma, altitude);
        r.Success? ==> (modelData.Some? && InRange(f) && r.body.features == FeaturesDict(f)
          && Produces(modelData.value, ToArray(f), r.body.quality, r.body.confidence))
      ensures modelData.Some? && r.HttpError? ==> r.status == 500 && PredictionErrorPrefix <= r.detail
    {
      if modelData.None? then HttpError(503, Unavailable)
      else Rewrap(PredictBody(modelData.value, FeatureVector(acidity, sweetness, body, aroma, altitude)))
    }

    /** The form endpoint as evidently intended: an out-of-range input is answered with
        status 400 naming the first failing field. */
    function PredictIntended(acidity: real, sweetness: real, body: real, aroma: real, altitude: real): (r: Response<PredictionResponse>)
      reads this
      ensures modelData.None? ==> r == HttpError(503, Unavailable)
      ensures var f := FeatureVector(acidity, sweetness, body, aroma, altitude);
        modelData.Some? && !InRange(f) ==> r == HttpError(400, RangeMessage(FirstInvalid(f).value))
      ensures var f := FeatureVector(acidity, sweetness, body, aroma, altitude);
        modelData.Some? && InRange(f) && r.HttpError? ==> r.status == 500 && PredictionErrorPrefix <= r.detail
      ensures var f := FeatureVector(acidity, sweetness, body, aroma, altitude);
        modelData.Some? && InRange(f) ==> (r.Success? <==> PipelineSucceeds(modelData.value, ToArray(f)))
      ensures var f := FeatureVector(acidity, sweetness, body, aroma, altitude);
        r.Success? ==> (modelData.Some? && InRange(f) && r.body.features == FeaturesDict(f)
          && Produces(modelData.value, ToArray(f), r.body.quality, r.body.confidence))
    {
      if modelData.None? then HttpError(503, Unavailable)
      else RewrapIntended(PredictBody(modelData.value, FeatureVector(acidity, sweetness, body, aroma, altitude)))
    }

    /** The JSON endpoint: the availability guard, then no range checks. */
    function PredictJson(features: FeatureVector): (r: Response<PredictionResponse>)
      reads this
      ensures modelData.None? ==> r == HttpError(503, Unavailable)
      ensures modelData.Some? ==> (r.Success? <==> PipelineSucceeds(modelData.value, ToArray(features)))
      ensures r.Success? ==> (modelData.Some? && r.body.features == FeaturesDict(features)
        && Produces(modelData.value, ToArray(features), r.body.quality, r.body.confidence))
      ensures modelData.Some? && r.HttpError? ==> r.status == 500 && PredictionErrorPrefix <= r.detail
    {
      if modelData.None? then HttpError(503, Unavailable)
      else Rewrap(PredictJsonBody(modelData.value, features))
    }

    /** The health endpoint: whether a model is loaded, and its accuracy exactly when it is. */
    function HealthCheck(): (r: Health)
      reads this
      ensures r.status == "healthy"
      ensures r.modelLoaded <==> modelData.Some?
      ensures r.modelAccuracy.None? <==> modelData.None?
      ensures modelData.Some? ==> r.modelAccuracy == Some(modelData.value.accuracy)
    {
      Health("healthy", modelData.Some?,
             if modelData.Some? then Some(modelData.value.accuracy) else None)
    }

    /** The model-info endpoint: 503 without a model, otherwise the stored feature
        names, accuracy and class list. */
    function ModelInfo(): (r: Response<Info>)
      reads this
      ensures modelData.None? ==> r == HttpError(503, InfoUnavailable)
      ensures modelData.Some? ==> (r.Success?
        && r.body == Info(modelData.value.featureNames, modelData.value.accuracy, modelData.value.model.classes))
    {
      if modelData.None? then HttpError(503, InfoUnavailable)
      else Success(Info(modelData.value.featureNames, modelData.value.accuracy, modelData.value.model.classes))
    }
  }

  /** An out-of-range acidity sent to a loaded server is answered 500, not 400: the range
      error is caught by the handler's own catch-all. The intended handler answers 400. */
  lemma RangeErrorSurfacesAs500(s: Server)
    requires s.modelData.Some?
    ensures s.Predict(15.0, 7.0, 6.0, 7.0, 1200.0).status == 500
    ensures s.Predict(15.0, 7.0, 6.0, 7.0, 1200.0).detail == PredictionErrorPrefix + "400: " + RangeMessage(Acidity)
    ensures s.PredictIntended(15.0, 7.0, 6.0, 7.0, 1200.0) == HttpError(400, RangeMessage(Acidity))
  {
  }

  /** A prediction served by a loaded model whose probabilities form a distribution has
      a confidence in (0, 1]. */
  lemma ServedConfidence(s: Server, f: FeatureVector)
    requires s.modelData.Some? && s.PredictJson(f).Success?
    requires Distribution(s.modelData.value.model.predictProba(
      s.modelData.value.scaler.transform(ToArray(f)).value).value)
    ensures 0.0 < s.PredictJson(f).body.confidence <= 1.0
  {
    var r := s.PredictJson(f);
    ProducedConfidence(s.modelData.value, ToArray(f), r.body.quality, r.body.confidence);
  }

  /** The 500 that the form endpoint sends for out-of-range input still identifies the
      failing field: two inputs whose error details agree fail on the same field. */
  lemma RangeErrorDetailIdentifiesField(s: Server, f: FeatureVector, g: FeatureVector)
    requires s.modelData.Some? && !InRange(f) && !InRange(g)
    requires s.Predict(f.acidity, f.sweetness, f.body, f.aroma, f.altitude).detail
          == s.Predict(g.acidity, g.sweetness, g.body, g.aroma, g.altitude).detail
    ensures FirstInvalid(f) == FirstInvalid(g)
  {
    var df := s.Predict(f.acidity, f.sweetness, f.body, f.aroma, f.altitude).detail;
    var dg := s.Predict(g.acidity, g.sweetness, g.body, g.aroma, g.altitude).detail;
    var mf, mg := RangeMessage(FirstInvalid(f).value), RangeMessage(FirstInvalid(g).value);
    assert df == PredictionErrorPrefix + ("400: " + mf);
    assert dg == PredictionErrorPrefix + ("400: " + mg);
    PrefixCancels(PredictionErrorPrefix, "400: " + mf, "400: " + mg);
    PrefixCancels("400: ", mf, mg);
    RangeMessageIdentifiesField(FirstInvalid(f).value, FirstInvalid(g).value);
  }

  lemma PrefixCancels(p: string, a: string, b: string)
    requires p + a == p + b
    ensures a == b
  {
    assert a == (p + a)[|p|..];
    assert b == (p + b)[|p|..];
  }

  /** For in-range input the form and JSON endpoints give the same reply: the same label,
      confidence and echoed features on success, the same status and detail on failure. */
  lemma FormJsonAgree(s: Server, f: FeatureVector)
    requires InRange(f)
    ensures s.Predict(f.acidity, f.sweetness, f.body, f.aroma, f.altitude) == s.PredictJson(f)
  {
  }
}
