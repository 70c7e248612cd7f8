/*
 * The helpers shared by the training and prediction scripts: the binary
 * risk label derived from the intent-to-quit score, the feature contract,
 * feature preparation by mean imputation, and the three-tier reading of a
 * risk probability.
 */
module Utils {
  import opened Schema
  import opened Table

  // ---------------------------------------------------------------------
  // create_risk_label
  // ---------------------------------------------------------------------

  /**
   * `create_risk_label`: 1 for an intent score of 4 or more, else 0. A
   * missing score is NaN, and `NaN >= 4` is false, so it labels 0; text
   * cannot be compared with a number and raises a TypeError.
   */
  function CreateRiskLabel(v: Value): (r: Result<int>)
    ensures r.Ok? <==> !v.Text?
    ensures r.Ok? ==> r.value == 0 || r.value == 1
    ensures r == Ok(1) <==> v.Num? && v.x >= 4.0
  {
    match v
    case Text(_) => Err(TypeMismatch(Intent))
    case Missing => Ok(0)
    case Num(x) => Ok(if x >= 4.0 then 1 else 0)
  }

  /** The scores 1-3 are the no-risk group, 4-5 the risk group. */
  lemma RiskLabelScale()
    ensures CreateRiskLabel(Num(1.0)) == Ok(0) && CreateRiskLabel(Num(3.0)) == Ok(0)
    ensures CreateRiskLabel(Num(4.0)) == Ok(1) && CreateRiskLabel(Num(5.0)) == Ok(1)
    ensures CreateRiskLabel(Num(3.5)) == Ok(0)
  {
  }

  /** A higher intent score never gives a lower label. */
  lemma RiskLabelMonotone(x: real, y: real)
    requires x <= y
    ensures CreateRiskLabel(Num(x)).value <= CreateRiskLabel(Num(y)).value
  {
  }

  /** `df[label].apply(create_risk_label)`: the label column, or the TypeError of the first text cell. */
  function RiskColumn(col: seq<Value>): (r: Result<seq<Value>>)
    ensures r.Ok? <==> NumericColumn(col)
    ensures r.Err? ==> r.error == TypeMismatch(Intent)
    ensures r.Ok? ==> |r.value| == |col|
    ensures r.Ok? ==> forall i :: 0 <= i < |col| ==> r.value[i] == Num(CreateRiskLabel(col[i]).value as real)
  {
    if col == [] then Ok([])
    else
      match CreateRiskLabel(col[0])
      case Err(e) => Err(e)
      case Ok(b) =>
        match RiskColumn(col[1..])
        case Err(e) => Err(e)
        case Ok(rest) => Ok([Num(b as real)] + rest)
  }

  /** The label the script derives from an intent cell, as a cell. */
  function LabelCell(v: Value): Value
  {
    if CreateRiskLabel(v) == Ok(1) then Num(1.0) else Num(0.0)
  }

  /** The label column holds the label cell of every intent cell. */
  lemma RiskColumnCells(col: seq<Value>)
    requires RiskColumn(col).Ok?
    ensures forall i :: 0 <= i < |col| ==> RiskColumn(col).value[i] == LabelCell(col[i])
  {
  }

  /** Every cell of a label column is 0 or 1, and 1 exactly where the score is at least 4. */
  lemma RiskColumnBinary(col: seq<Value>, i: nat)
    requires RiskColumn(col).Ok? && i < |col|
    ensures RiskColumn(col).value[i] == Num(0.0) || RiskColumn(col).value[i] == Num(1.0)
    ensures RiskColumn(col).value[i] == Num(1.0) <==> col[i].Num? && col[i].x >= 4.0
  {
  }

  // ---------------------------------------------------------------------
  // get_feature_columns
  // ---------------------------------------------------------------------

  /** `get_feature_columns`: the twelve features in contract order. */
  function GetFeatureColumns(): (r: seq<Column>)
    ensures |r| == 12 && Distinct(r)
    ensures forall c :: c in r ==> IsFeature(c)
    ensures r[0] == Feature(Attendance) && r[11] == Feature(FinancialStress)
  {
    FeatureColumns
  }

  /** Every feature is in the contract. */
  lemma FeatureColumnsComplete(f: Feature)
    ensures Feature(f) in GetFeatureColumns()
  {
    var j := FeatureIndex(f);
  }

  /** Where each feature stands in the contract. */
  function FeatureIndex(f: Feature): (j: nat)
    ensures j < 12 && GetFeatureColumns()[j] == Feature(f)
  {
    match f
    case Attendance => 0
    case SelfStudy => 1
    case Stress => 2
    case Work => 3
    case Sleep => 4
    case SocialMedia => 5
    case StudyAverage => 6
    case HighSchoolAverage => 7
    case Exam1 => 8
    case Exam2 => 9
    case Exam3 => 10
    case FinancialStress => 11
  }

  /** Length, first and last character of a feature's internal name. */
  function NameKey(f: Feature): (nat, char, char)
  {
    match f
    case Attendance => (15, 'l', 'c')
    case SelfStudy => (25, 's', 'l')
    case Stress => (12, 's', 's')
    case Work => (14, 'd', 's')
    case Sleep => (14, 'm', 's')
    case SocialMedia => (21, 's', 'l')
    case StudyAverage => (16, 's', 's')
    case HighSchoolAverage => (25, 'd', 's')
    case Exam1 => (19, 'b', '1')
    case Exam2 => (19, 'b', '2')
    case Exam3 => (19, 'b', '3')
    case FinancialStress => (18, 'f', 's')
  }

  lemma NameKeyOf(f: Feature)
    ensures var n := FeatureName(f); NameKey(f) == (|n|, n[0], n[|n| - 1])
  {
  }

  /** Different features have different internal names, so the contract names twelve distinct columns. */
  lemma FeatureNamesDistinct(f: Feature, g: Feature)
    requires f != g
    ensures FeatureName(f) != FeatureName(g)
  {
    NameKeyOf(f);
    NameKeyOf(g);
  }

  // ---------------------------------------------------------------------
  // prepare_features
  // ---------------------------------------------------------------------

  /** The first selected column pandas cannot average, if any. */
  function FirstNonNumeric(f: Frame, j: nat): (r: Option<Column>)
    requires WellFormed(f) && j <= |f.cols|
    ensures r.None? <==> forall k :: j <= k < |f.cols| ==> NumericColumn(f.cols[k])
    ensures r.Some? ==> exists k :: j <= k < |f.cols| && f.names[k] == r.value && !NumericColumn(f.cols[k])
    decreases |f.cols| - j
  {
    if j == |f.cols| then None
    else if !NumericColumn(f.cols[j]) then Some(f.names[j])
    else FirstNonNumeric(f, j + 1)
  }

  /**
   * `prepare_features`: `df[cs]` (KeyError for an absent column), then
   * every column's missing cells filled with that column's mean (a
   * TypeError when a selected column holds text).
   */
  function PrepareFeatures(df: Frame, cs: seq<Column>): (r: Result<Frame>)
    requires WellFormed(df)
    ensures r.Ok? ==> WellFormed(r.value) && r.value.names == cs && r.value.height == df.height
  {
    match Select(df, cs)
    case Err(e) => Err(e)
    case Ok(x) =>
      match FirstNonNumeric(x, 0)
      case Some(c) => Err(TypeMismatch(c))
      case None =>
        Ok(Frame(x.height, x.names, seq(|x.cols|, j requires 0 <= j < |x.cols| => ImputeMean(x.cols[j]))))
  }

  /**
   * `prepare_features` succeeds exactly when every requested column exists
   * and holds no text. It then keeps the requested columns in the requested
   * order and every row in its place: a present cell is unchanged, a
   * missing cell takes its column's mean over the present cells, and a
   * column with no present cell stays as it was.
   */
  lemma PrepareFeaturesSpec(df: Frame, cs: seq<Column>)
    requires WellFormed(df)
    ensures PrepareFeatures(df, cs).Ok? <==>
      (forall c :: c in cs ==> c in df.names) && forall c :: c in cs ==> NumericColumn(Get(df, c))
    ensures PrepareFeatures(df, cs).Ok? ==> forall j, i :: 0 <= j < |cs| && 0 <= i < df.height ==>
      var src := Get(df, cs[j]);
      var out := PrepareFeatures(df, cs).value.cols[j];
      (src[i] != Missing ==> out[i] == src[i]) &&
      (src[i] == Missing && Mean(src).Some? ==> out[i] == Num(Mean(src).value)) &&
      (Mean(src).None? ==> out[i] == src[i])
  {
    var s := Select(df, cs);
    if s.Ok? {
      var x := s.value;
      if FirstNonNumeric(x, 0).None? {
        forall j | 0 <= j < |cs|
          ensures ImputeMeanSpecAt(x.cols[j])
        {
          ImputeMeanSpec(x.cols[j]);
        }
      } else {
        var k :| 0 <= k < |x.cols| && x.names[k] == FirstNonNumeric(x, 0).value && !NumericColumn(x.cols[k]);
        assert cs[k] in cs && !NumericColumn(Get(df, cs[k]));
      }
    }
  }

  /** The three facts of ImputeMeanSpec that PrepareFeaturesSpec restates cell by cell. */
  predicate ImputeMeanSpecAt(col: seq<Value>)
  {
    (forall i :: 0 <= i < |col| && col[i] != Missing ==> ImputeMean(col)[i] == col[i]) &&
    (forall i :: 0 <= i < |col| && col[i] == Missing && Mean(col).Some? ==>
      ImputeMean(col)[i] == Num(Mean(col).value)) &&
    (Mean(col).None? ==> ImputeMean(col) == col)
  }

  // ---------------------------------------------------------------------
  // interpret_prediction
  // ---------------------------------------------------------------------

  /** The three risk tiers, lowest first. */
  datatype Tier = Low | Medium | High

  function TierRank(t: Tier): nat
  {
    match t
    case Low => 0
    case Medium => 1
    case High => 2
  }

  /** The `risk_level` string of each tier. */
  function TierLabel(t: Tier): string
  {
    match t
    case High => "AUKŠTA RIZIKA"
    case Medium => "VIDUTINĖ RIZIKA"
    case Low => "ŽEMA RIZIKA"
  }

  /** The `message` string of each tier. */
  function TierMessage(t: Tier): string
  {
    match t
    case High => "Studentas priklauso aukštos rizikos grupei. Rekomenduojama skirti papildomą dėmesį."
    case Medium => "Studentas priklauso vidutinės rizikos grupei. Rekomenduojama stebėti situaciją."
    case Low => "Studentas nepriklauso rizikos grupei. Studijų tęsimo tikimybė aukšta."
  }

  const HighThreshold: real := 0.60
  const MediumThreshold: real := 0.30

  /** The tier bands: [0.60, ..) high, [0.30, 0.60) medium, below 0.30 low. */
  function TierOf(prob: real): (t: Tier)
    ensures t == High <==> prob >= 0.60
    ensures t == Medium <==> 0.30 <= prob < 0.60
    ensures t == Low <==> prob < 0.30
  {
    if prob >= HighThreshold then High
    else if prob >= MediumThreshold then Medium
    else Low
  }

  /** A higher probability never gives a lower tier. */
  lemma TierMonotone(p: real, q: real)
    requires p <= q
    ensures TierRank(TierOf(p)) <= TierRank(TierOf(q))
  {
  }

  /** The returned dictionary; `risk_level` and `message` are the tier's strings. */
  datatype Interpretation = Interpretation(level: Tier, confidence: real, prediction: int)

  function RiskLevel(i: Interpretation): string
  {
    TierLabel(i.level)
  }

  function Message(i: Interpretation): string
  {
    TierMessage(i.level)
  }

  /** The probability the tier is read from: `risk_probability` when given, else `probability`. */
  function ChosenProbability(probability: real, riskProbability: Option<real>): (p: real)
    ensures riskProbability.Some? ==> p == riskProbability.value
    ensures riskProbability.None? ==> p == probability
  {
    match riskProbability
    case Some(q) => q
    case None => probability
  }

  /**
   * `interpret_prediction`: the tier of the chosen probability, a
   * confidence of that probability in percent, and the prediction passed
   * through.
   */
  function InterpretPrediction(prediction: int, probability: real, riskProbability: Option<real>): (r: Interpretation)
    ensures r.prediction == prediction
    ensures r.confidence == 100.0 * ChosenProbability(probability, riskProbability)
    ensures r.level == TierOf(ChosenProbability(probability, riskProbability))
  {
    var prob := ChosenProbability(probability, riskProbability);
    Interpretation(TierOf(prob), prob * 100.0, prediction)
  }

  /** The tier can be read back from the confidence: high from 60, medium from 30. */
  lemma TierFromConfidence(prediction: int, probability: real, riskProbability: Option<real>)
    ensures var r := InterpretPrediction(prediction, probability, riskProbability);
      (r.level == High <==> r.confidence >= 60.0) &&
      (r.level == Medium <==> 30.0 <= r.confidence < 60.0) &&
      (r.level == Low <==> r.confidence < 30.0)
  {
  }

  /** With a risk probability supplied, the plain probability has no effect. */
  lemma RiskProbabilityOverrides(prediction: int, p: real, q: real, risk: real)
    ensures InterpretPrediction(prediction, p, Some(risk)) == InterpretPrediction(prediction, q, Some(risk))
  {
  }

  /** The three tiers carry three different labels. */
  lemma TierLabelsDistinct(s: Tier, t: Tier)
    requires s != t
    ensures TierLabel(s) != TierLabel(t)
  {
    var a, b := TierLabel(s), TierLabel(t);
    assert a[0] != b[0] || |a| != |b|;
  }
}
