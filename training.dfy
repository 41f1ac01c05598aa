/** The training script: the rule that labels the synthetic samples, the outlier
    filter, and the assembly of the artifact around the fitted library objects. */
module Training {
  import opened Coffee

  /** Number of samples drawn per feature. */
  const NSamples: nat := 1000

  // ---------------------------------------------------------------------------
  // The labelling rule
  // ---------------------------------------------------------------------------

  /** The five quality criteria; acidity is a closed interval, the others one-sided,
      every bound inclusive. */
  predicate AcidityOk(a: real) { 4.5 <= a <= 6.0 }
  predicate SweetnessOk(s: real) { s >= 6.0 }
  predicate BodyOk(b: real) { b >= 6.5 }
  predicate AromaOk(a: real) { a >= 6.0 }
  predicate AltitudeOk(h: real) { h >= 1000.0 }

  /** Which criteria a sample meets, in the order the rule tests them. */
  function Criteria(f: FeatureVector): (c: seq<bool>)
    ensures |c| == 5
  {
    [AcidityOk(f.acidity), SweetnessOk(f.sweetness), BodyOk(f.body), AromaOk(f.aroma), AltitudeOk(f.altitude)]
  }

  /** The number of true entries. */
  function Count(s: seq<bool>): (n: nat)
    ensures n <= |s|
    ensures n == |s| <==> forall i :: 0 <= i < |s| ==> s[i]
    ensures n == 0 <==> forall i :: 0 <= i < |s| ==> !s[i]
  {
    if s == [] then 0 else (if s[0] then 1 else 0) + Count(s[1..])
  }

  /** Count agrees with the number of occurrences of true. */
  lemma {:induction false} CountIsOccurrences(s: seq<bool>)
    ensures Count(s) == multiset(s)[true]
  {
    if s != [] {
      CountIsOccurrences(s[1..]);
      assert s == [s[0]] + s[1..];
      assert multiset(s) == multiset([s[0]]) + multiset(s[1..]);
    }
  }

  /** Count grows with the set of true entries. */
  lemma {:induction false} CountMonotone(a: seq<bool>, b: seq<bool>)
    requires |a| == |b|
    requires forall i :: 0 <= i < |a| ==> a[i] ==> b[i]
    ensures Count(a) <= Count(b)
  {
    if a != [] {
      CountMonotone(a[1..], b[1..]);
    }
  }

  /** Turning one false entry true adds exactly one. */
  lemma {:induction false} CountSetOne(a: seq<bool>, k: nat)
    requires k < |a| && !a[k]
    ensures Count(a[k := true]) == Count(a) + 1
  {
    if k > 0 {
      assert a[k := true][1..] == a[1..][k - 1 := true];
      CountSetOne(a[1..], k - 1);
    } else {
      assert a[k := true][1..] == a[1..];
    }
  }

  /** The quality score: one point per criterion met. */
  function Score(f: FeatureVector): (r: nat)
    ensures r <= 5
    ensures r == 5 <==> forall i :: 0 <= i < 5 ==> Criteria(f)[i]
    ensures r == 0 <==> forall i :: 0 <= i < 5 ==> !Criteria(f)[i]
  {
    Count(Criteria(f))
  }

  function Point(b: bool): nat { if b then 1 else 0 }

  /** The score is the sum of the five one-point tests. */
  lemma ScoreIsSumOfPoints(f: FeatureVector)
    ensures Score(f) == Point(AcidityOk(f.acidity)) + Point(SweetnessOk(f.sweetness)) + Point(BodyOk(f.body))
                        + Point(AromaOk(f.aroma)) + Point(AltitudeOk(f.altitude))
  {
    var c := Criteria(f);
    assert c[1..] == c[1..5];
    assert c[1..5][1..] == c[2..5];
    assert c[2..5][1..] == c[3..5];
    assert c[3..5][1..] == c[4..5];
    assert c[4..5][1..] == [];
    assert Count(c[4..5]) == Point(c[4]);
    assert Count(c[3..5]) == Point(c[3]) + Point(c[4]);
    assert Count(c[2..5]) == Point(c[2]) + Point(c[3]) + Point(c[4]);
    assert Count(c[1..5]) == Point(c[1]) + Point(c[2]) + Point(c[3]) + Point(c[4]);
  }

  /** Meeting every criterion another sample meets never lowers the score. */
  lemma ScoreMonotone(f: FeatureVector, g: FeatureVector)
    requires forall i :: 0 <= i < 5 ==> Criteria(f)[i] ==> Criteria(g)[i]
    ensures Score(f) <= Score(g)
  {
    CountMonotone(Criteria(f), Criteria(g));
  }

  /** Meeting one more criterion raises the score by exactly one point. */
  lemma OneMoreCriterion(f: FeatureVector, g: FeatureVector, k: nat)
    requires k < 5 && !Criteria(f)[k]
    requires Criteria(g) == Criteria(f)[k := true]
    ensures Score(g) == Score(f) + 1
  {
    CountSetOne(Criteria(f), k);
  }

  /** The label for a score; exactly one label is assigned to every score. */
  function Label(score: int): (q: Quality)
    ensures q == Premium <==> score >= 4
    ensures q == Bueno <==> 2 <= score <= 3
    ensures q == Regular <==> score <= 1
  {
    if score >= 4 then Premium else if score >= 2 then Bueno else Regular
  }

  /** The labels ordered from worst to best. */
  function Rank(q: Quality): nat
  {
    match q
    case Regular => 0
    case Bueno => 1
    case Premium => 2
  }

  /** A higher score never gets a worse label. */
  lemma LabelMonotone(s: int, t: int)
    requires s <= t
    ensures Rank(Label(s)) <= Rank(Label(t))
  {
  }

  /** A sample meeting every criterion another meets is labelled at least as well. */
  lemma LabelMonotoneInCriteria(f: FeatureVector, g: FeatureVector)
    requires forall i :: 0 <= i < 5 ==> Criteria(f)[i] ==> Criteria(g)[i]
    ensures Rank(Label(Score(f))) <= Rank(Label(Score(g)))
  {
    ScoreMonotone(f, g);
    LabelMonotone(Score(f), Score(g));
  }

  /** The two reference samples: one meeting every criterion, one meeting none;
      and a sample on the inclusive acidity upper bound. */
  lemma ReferenceSamples()
    ensures Score(FeatureVector(5.0, 8.0, 8.0, 8.0, 1500.0)) == 5
    ensures Label(Score(FeatureVector(5.0, 8.0, 8.0, 8.0, 1500.0))) == Premium
    ensures Score(FeatureVector(9.0, 2.0, 3.0, 2.0, 600.0)) == 0
    ensures Label(Score(FeatureVector(9.0, 2.0, 3.0, 2.0, 600.0))) == Regular
    ensures Score(FeatureVector(6.0, 6.5, 6.0, 6.8, 1200.0)) == 4
    ensures Label(Score(FeatureVector(6.0, 6.5, 6.0, 6.8, 1200.0))) == Premium
  {
  }

  // ---------------------------------------------------------------------------
  // The synthetic table
  // ---------------------------------------------------------------------------

  /** The five sampled columns, one entry per generated sample. */
  datatype Columns = Columns(acidity: seq<real>, sweetness: seq<real>, body: seq<real>, aroma: seq<real>, altitude: seq<real>)
  {
    predicate Aligned()
    {
      |sweetness| == |acidity| && |body| == |acidity| && |aroma| == |acidity| && |altitude| == |acidity|
    }

    function Sample(i: nat): FeatureVector
      requires Aligned() && i < |acidity|
    {
      FeatureVector(acidity[i], sweetness[i], body[i], aroma[i], altitude[i])
    }
  }

  /** A row of the table: a sample and its label. */
  datatype Row = Row(features: FeatureVector, quality: Quality)

  /** The table before cleaning: every sample with the label the rule gives it, in order. */
  function Labelled(cols: Columns): (rows: seq<Row>)
    requires cols.Aligned()
    ensures |rows| == |cols.acidity|
    ensures forall i :: 0 <= i < |rows| ==> rows[i].features == cols.Sample(i)
    ensures forall i :: 0 <= i < |rows| ==> rows[i].quality == Label(Score(cols.Sample(i)))
  {
    seq(|cols.acidity|, i requires 0 <= i < |cols.acidity| => Row(cols.Sample(i), Label(Score(cols.Sample(i)))))
  }

  /** The labelling loop: one label per sample, in generation order. */
  method QualityLabels(cols: Columns) returns (labels: seq<Quality>)
    requires cols.Aligned()
    ensures |labels| == |cols.acidity|
    ensures forall i :: 0 <= i < |labels| ==> labels[i] == Label(Score(cols.Sample(i)))
  {
    labels := [];
    for i := 0 to |cols.acidity|
      invariant |labels| == i
      invariant forall j :: 0 <= j < i ==> labels[j] == Label(Score(cols.Sample(j)))
    {
      var score := 0;
      if 4.5 <= cols.acidity[i] <= 6.0 {
        score := score + 1;
      }
      if cols.sweetness[i] >= 6.0 {
        score := score + 1;
      }
      if cols.body[i] >= 6.5 {
        score := score + 1;
      }
      if cols.aroma[i] >= 6.0 {
        score := score + 1;
      }
      if cols.altitude[i] >= 1000.0 {
        score := score + 1;
      }
      ScoreIsSumOfPoints(cols.Sample(i));
      if score >= 4 {
        labels := labels + [Premium];
      } else if score >= 2 {
        labels := labels + [Bueno];
      } else {
        labels := labels + [Regular];
      }
    }
  }

  /** The outlier filter: keeps exactly the rows whose features are in range, unchanged. */
  function Clean(rows: seq<Row>): (kept: seq<Row>)
    ensures |kept| <= |rows|
    ensures forall r :: r in kept <==> r in rows && InRange(r.features)
  {
    if rows == [] then []
    else (if InRange(rows[0].features) then [rows[0]] else []) + Clean(rows[1..])
  }

  /** Filtering a concatenation filters each part: the filter keeps relative order. */
  lemma {:induction false} CleanDistributes(a: seq<Row>, b: seq<Row>)
    ensures Clean(a + b) == Clean(a) + Clean(b)
  {
    if a != [] {
      assert (a + b)[1..] == a[1..] + b;
      CleanDistributes(a[1..], b);
    } else {
      assert a + b == b;
    }
  }

  /** A table whose rows are all in range passes the filter untouched, so the filter is idempotent. */
  lemma {:induction false} CleanKeepsValid(rows: seq<Row>)
    requires forall i :: 0 <= i < |rows| ==> InRange(rows[i].features)
    ensures Clean(rows) == rows
  {
    if rows != [] {
      CleanKeepsValid(rows[1..]);
    }
  }

  lemma CleanIdempotent(rows: seq<Row>)
    ensures Clean(Clean(rows)) == Clean(rows)
  {
    var kept := Clean(rows);
    forall i | 0 <= i < |kept| ensures InRange(kept[i].features) {
      assert kept[i] in kept;
    }
    CleanKeepsValid(kept);
  }

  /** The synthetic data set built from the sampled columns: labelled, then cleaned. */
  method CreateCoffeeDataset(cols: Columns) returns (data: seq<Row>)
    requires cols.Aligned() && |cols.acidity| == NSamples
    ensures data == Clean(Labelled(cols))
    ensures |data| <= NSamples
    ensures forall r :: r in data ==> InRange(r.features) && r.quality == Label(Score(r.features))
  {
    var labels := QualityLabels(cols);
    var table := seq(|cols.acidity|, i requires 0 <= i < |cols.acidity| => Row(cols.Sample(i), labels[i]));
    assert table == Labelled(cols);
    data := Clean(table);
    forall r | r in data ensures InRange(r.features) && r.quality == Label(Score(r.features)) {
      assert r in table;
    }
  }

  // ---------------------------------------------------------------------------
  // The artifact
  // ---------------------------------------------------------------------------

  /** The feature matrix X: one row per sample, column j holding the value named FeatureNames[j]. */
  function FeatureMatrix(data: seq<Row>): (x: seq<seq<real>>)
    ensures |x| == |data|
    ensures forall i :: 0 <= i < |x| ==> |x[i]| == |FeatureNames|
    ensures forall i, j :: 0 <= i < |x| && 0 <= j < |FeatureNames| ==>
      FeatureNames[j] in FeaturesDict(data[i].features) && x[i][j] == FeaturesDict(data[i].features)[FeatureNames[j]]
  {
    seq(|data|, i requires 0 <= i < |data| => ToArray(data[i].features))
  }

  /** The target vector y: the label column, row for row with X. */
  function Targets(data: seq<Row>): (y: seq<Quality>)
    ensures |y| == |data|
    ensures forall i :: 0 <= i < |y| ==> y[i] == data[i].quality
  {
    seq(|data|, i requires 0 <= i < |data| => data[i].quality)
  }

  /** The library pipeline: split, scale, fit and evaluate, giving the fitted scaler,
      the fitted classifier and the held-out accuracy. */
  datatype Fitter = Fitter(fit: (seq<seq<real>>, seq<Quality>) -> (Scaler, Classifier, real))

  /** Training: build the data set, hand X and y to the library, bundle the result
      with the selected column names. */
  method TrainModel(cols: Columns, fitter: Fitter) returns (artifact: ModelData)
    requires cols.Aligned() && |cols.acidity| == NSamples
    ensures artifact.featureNames == ["acidity", "sweetness", "body", "aroma", "altitude"]
    ensures var data := Clean(Labelled(cols));
      (artifact.scaler, artifact.model, artifact.accuracy) == fitter.fit(FeatureMatrix(data), Targets(data))
  {
    var data := CreateCoffeeDataset(cols);
    var (scaler, model, accuracy) := fitter.fit(FeatureMatrix(data), Targets(data));
    artifact := ModelData(model, scaler, FeatureNames, accuracy);
  }

  /** Each training row's column j holds the value the artifact names featureNames[j],
      and so does column j of the vector built at inference: training and serving agree. */
  lemma TrainServeAgree(data: seq<Row>, artifact: ModelData, f: FeatureVector, i: nat, j: nat)
    requires artifact.featureNames == FeatureNames
    requires i < |data| && j < |FeatureNames|
    ensures artifact.featureNames[j] in FeaturesDict(data[i].features)
    ensures FeatureMatrix(data)[i][j] == FeaturesDict(data[i].features)[artifact.featureNames[j]]
    ensures ToArray(f)[j] == FeaturesDict(f)[artifact.featureNames[j]]
  {
  }

  /** Every (x, y) pair handed to the fit is an in-range sample and the label the rule
      gives that sample's own values. */
  lemma TrainingPairsFollowRule(cols: Columns, i: nat)
    requires cols.Aligned()
    requires i < |Clean(Labelled(cols))|
    ensures var data := Clean(Labelled(cols));
      InRange(data[i].features) && Targets(data)[i] == Label(Score(data[i].features))
      && FeatureMatrix(data)[i] == ToArray(data[i].features)
  {
  }
}
