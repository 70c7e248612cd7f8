/*
 * The prediction script: the risk decision for one student at the lowered
 * threshold, the rule-based explanation of the decision, the rule-based
 * grade outlook, and the row-by-row batch run. The scaler and the trained
 * classifier are one opaque function from a feature row to the two class
 * probabilities.
 */
module Predict {
  import opened Schema
  import opened Utils

  // ---------------------------------------------------------------------
  // explain_prediction
  // ---------------------------------------------------------------------

  /** The factors an explanation can mention, in the order they are checked. */
  datatype Factor =
    | AttendanceFactor | StressFactor | SleepFactor | WorkFactor
    | SelfStudyFactor | ExamFactor | FinanceFactor

  function FactorRank(f: Factor): nat
  {
    match f
    case AttendanceFactor => 0
    case StressFactor => 1
    case SleepFactor => 2
    case WorkFactor => 3
    case SelfStudyFactor => 4
    case ExamFactor => 5
    case FinanceFactor => 6
  }

  /**
   * One line of the explanation: a factor that raises the risk (the ❌
   * lines), one that lowers it (the ✅ lines) with the value it shows, or
   * the single neutral line.
   */
  datatype Reason = Concern(factor: Factor, shown: real) | Strength(factor: Factor, shown: real) | AllAverage

  function ReasonRank(r: Reason): nat
  {
    if r.AllAverage? then 7 else FactorRank(r.factor)
  }

  /** A comparison of a cell with a constant. */
  datatype Cmp = Below(c: real) | AtMost(c: real) | AtLeast(c: real) | Above(c: real)

  predicate Holds(cmp: Cmp, x: real)
  {
    match cmp
    case Below(c) => x < c
    case AtMost(c) => x <= c
    case AtLeast(c) => x >= c
    case Above(c) => x > c
  }

  /**
   * The check of one factor: `if get(key, concernDefault) <concern>` gives
   * a concern, `elif get(key, strengthDefault) <strength>` a strength.
   */
  datatype Rule = Rule(key: Column, factor: Factor, concernDefault: real, concern: Cmp,
                       strengthDefault: real, strength: Option<Cmp>)

  const AttendanceRule := Rule(Feature(Attendance), AttendanceFactor, 100.0, Below(70.0), 0.0, Some(AtLeast(90.0)))
  const StressRule := Rule(Feature(Stress), StressFactor, 1.0, AtLeast(4.0), 5.0, Some(AtMost(2.0)))
  const SleepRule := Rule(Feature(Sleep), SleepFactor, 8.0, Below(6.0), 0.0, Some(AtLeast(7.0)))
  const WorkRule := Rule(Feature(Work), WorkFactor, 0.0, Above(30.0), 40.0, Some(AtMost(15.0)))
  const SelfStudyRule := Rule(Feature(SelfStudy), SelfStudyFactor, 20.0, Below(5.0), 0.0, Some(AtLeast(10.0)))
  const FinanceRule := Rule(Feature(FinancialStress), FinanceFactor, 1.0, AtLeast(4.0), 0.0, None)

  /** The rules in the order the script applies them; the exam check sits between the last two. */
  const Rules: seq<Rule> := [AttendanceRule, StressRule, SleepRule, WorkRule, SelfStudyRule, FinanceRule]

  /** `dict.get(key, default)` on a student record. */
  function Lookup(s: map<Column, Value>, key: Column, default: real): Value
  {
    if key in s then s[key] else Num(default)
  }

  /**
   * One factor's lines. A missing cell is NaN, which every comparison
   * rejects; a text cell cannot be compared with a number and raises.
   */
  function ApplyRule(rule: Rule, s: map<Column, Value>): (r: Result<seq<Reason>>)
    ensures r.Err? <==> rule.key in s && s[rule.key].Text?
    ensures r.Ok? ==> |r.value| <= 1 && forall x :: x in r.value ==> !x.AllAverage? && x.factor == rule.factor
  {
    var first := Lookup(s, rule.key, rule.concernDefault);
    if first.Text? then Err(TypeMismatch(rule.key))
    else if first.Num? && Holds(rule.concern, first.x) then Ok([Concern(rule.factor, first.x)])
    else if rule.strength.None? then Ok([])
    else
      var second := Lookup(s, rule.key, rule.strengthDefault);
      if second.Num? && Holds(rule.strength.value, second.x) then Ok([Strength(rule.factor, second.x)])
      else Ok([])
  }

  /** The defaults fire neither comparison, so an absent key gives no line. */
  predicate DefaultsInert(rule: Rule)
  {
    !Holds(rule.concern, rule.concernDefault) &&
    (rule.strength.Some? ==> !Holds(rule.strength.value, rule.strengthDefault))
  }

  lemma RulesInert()
    ensures forall i :: 0 <= i < |Rules| ==> DefaultsInert(Rules[i])
  {
  }

  /**
   * With inert defaults a factor gives a concern exactly when its cell is a
   * number passing the concern test, a strength exactly when its cell is a
   * number failing the concern test and passing the strength test, and
   * nothing when the key is absent or the cell missing.
   */
  lemma RuleSpec(rule: Rule, s: map<Column, Value>, x: real)
    requires DefaultsInert(rule)
    ensures ApplyRule(rule, s).Ok? ==>
      (Concern(rule.factor, x) in ApplyRule(rule, s).value <==>
         rule.key in s && s[rule.key] == Num(x) && Holds(rule.concern, x))
    ensures ApplyRule(rule, s).Ok? ==>
      (Strength(rule.factor, x) in ApplyRule(rule, s).value <==>
         rule.key in s && s[rule.key] == Num(x) && !Holds(rule.concern, x) &&
         rule.strength.Some? && Holds(rule.strength.value, x))
    ensures rule.key !in s || s[rule.key] == Missing ==> ApplyRule(rule, s) == Ok([])
  {
  }

  const ExamKeys: seq<Column> := [Feature(Exam1), Feature(Exam2), Feature(Exam3)]

  /**
   * The exam line: the mean of the three scores, an absent score counting
   * as 0. Text in any score raises; a missing score makes the mean NaN,
   * which fires neither test.
   */
  function ExamReasons(s: map<Column, Value>): (r: Result<seq<Reason>>)
    ensures r.Err? <==> exists k :: k in ExamKeys && k in s && s[k].Text?
    ensures r.Ok? ==> |r.value| <= 1 && forall x :: x in r.value ==> !x.AllAverage? && x.factor == ExamFactor
  {
    var a, b, c := Lookup(s, Feature(Exam1), 0.0), Lookup(s, Feature(Exam2), 0.0), Lookup(s, Feature(Exam3), 0.0);
    if a.Text? then Err(TypeMismatch(Feature(Exam1)))
    else if b.Text? then Err(TypeMismatch(Feature(Exam2)))
    else if c.Text? then Err(TypeMismatch(Feature(Exam3)))
    else if a.Missing? || b.Missing? || c.Missing? then Ok([])
    else
      var avg := (a.x + b.x + c.x) / 3.0;
      if avg > 0.0 && avg < 60.0 then Ok([Concern(ExamFactor, avg)])
      else if avg >= 75.0 then Ok([Strength(ExamFactor, avg)])
      else Ok([])
  }

  /** The mean exam score, an absent score counting as 0. */
  function ExamAverage(s: map<Column, Value>): real
    requires forall k :: k in ExamKeys ==> Lookup(s, k, 0.0).Num?
  {
    (Lookup(s, Feature(Exam1), 0.0).x + Lookup(s, Feature(Exam2), 0.0).x + Lookup(s, Feature(Exam3), 0.0).x) / 3.0
  }

  /** A low-exams line exactly for a mean strictly between 0 and 60, a good-exams line from 75. */
  lemma ExamSpec(s: map<Column, Value>)
    requires forall k :: k in ExamKeys ==> Lookup(s, k, 0.0).Num?
    ensures ExamReasons(s).Ok?
    ensures ExamReasons(s).value != [] && ExamReasons(s).value[0].Concern? <==>
      0.0 < ExamAverage(s) < 60.0
    ensures ExamReasons(s).value != [] && ExamReasons(s).value[0].Strength? <==>
      ExamAverage(s) >= 75.0
    ensures ExamReasons(s).value != [] ==> ExamReasons(s).value[0].shown == ExamAverage(s)
  {
    assert forall k :: k in ExamKeys ==> (k in s ==> !s[k].Text?) by {
      forall k | k in ExamKeys && k in s
        ensures !s[k].Text?
      {
        assert Lookup(s, k, 0.0) == s[k];
      }
    }
  }

  /** Python's sequencing of the checks: the first exception ends the explanation. */
  function AndThen(acc: Result<seq<Reason>>, next: Result<seq<Reason>>): Result<seq<Reason>>
  {
    if acc.Err? then acc else if next.Err? then next else Ok(acc.value + next.value)
  }

  /** The check made at position `p` of `explain_prediction`. */
  function CheckAt(s: map<Column, Value>, p: nat): (r: Result<seq<Reason>>)
    requires p < 7
    ensures r.Ok? ==> |r.value| <= 1 && forall x :: x in r.value ==> ReasonRank(x) == p
  {
    if p == 0 then ApplyRule(AttendanceRule, s)
    else if p == 1 then ApplyRule(StressRule, s)
    else if p == 2 then ApplyRule(SleepRule, s)
    else if p == 3 then ApplyRule(WorkRule, s)
    else if p == 4 then ApplyRule(SelfStudyRule, s)
    else if p == 5 then ExamReasons(s)
    else ApplyRule(FinanceRule, s)
  }

  /** The lines of the first `n` checks, or the first exception among them. */
  function ChecksUpTo(s: map<Column, Value>, n: nat): Result<seq<Reason>>
    requires n <= 7
  {
    if n == 0 then Ok([]) else AndThen(ChecksUpTo(s, n - 1), CheckAt(s, n - 1))
  }

  /** The result of `explain_prediction`, with the neutral line when no check fired. */
  function ExplainReasons(s: map<Column, Value>): Result<seq<Reason>>
  {
    match ChecksUpTo(s, 7)
    case Err(e) => Err(e)
    case Ok(rs) => Ok(if rs == [] then [AllAverage] else rs)
  }

  /** `explain_prediction`: the checks in order, each appending at most one line. */
  method ExplainPrediction(s: map<Column, Value>) returns (r: Result<seq<Reason>>)
    ensures r == ExplainReasons(s)
  {
    var reasons: seq<Reason> := [];
    var step := ApplyRule(AttendanceRule, s);
    if step.Err? { ErrorPersists(s, 1); return Err(step.error); }
    CheckStep(s, 0, reasons, step);
    reasons := reasons + step.value;
    step := ApplyRule(StressRule, s);
    if step.Err? { ErrorPersists(s, 2); return Err(step.error); }
    CheckStep(s, 1, reasons, step);
    reasons := reasons + step.value;
    step := ApplyRule(SleepRule, s);
    if step.Err? { ErrorPersists(s, 3); return Err(step.error); }
    CheckStep(s, 2, reasons, step);
    reasons := reasons + step.value;
    step := ApplyRule(WorkRule, s);
    if step.Err? { ErrorPersists(s, 4); return Err(step.error); }
    CheckStep(s, 3, reasons, step);
    reasons := reasons + step.value;
    step := ApplyRule(SelfStudyRule, s);
    if step.Err? { ErrorPersists(s, 5); return Err(step.error); }
    CheckStep(s, 4, reasons, step);
    reasons := reasons + step.value;
    step := ExamReasons(s);
    if step.Err? { ErrorPersists(s, 6); return Err(step.error); }
    CheckStep(s, 5, reasons, step);
    reasons := reasons + step.value;
    step := ApplyRule(FinanceRule, s);
    if step.Err? { ErrorPersists(s, 7); return Err(step.error); }
    CheckStep(s, 6, reasons, step);
    reasons := reasons + step.value;
    assert ExplainReasons(s) == Ok(if reasons == [] then [AllAverage] else reasons);
    if reasons == [] {
      reasons := [AllAverage];
    }
    return Ok(reasons);
  }

  /** A check that does not raise appends its lines to those of the checks before it. */
  lemma CheckStep(s: map<Column, Value>, n: nat, reasons: seq<Reason>, step: Result<seq<Reason>>)
    requires n < 7 && ChecksUpTo(s, n) == Ok(reasons) && step == CheckAt(s, n) && step.Ok?
    ensures ChecksUpTo(s, n + 1) == Ok(reasons + step.value)
  {
  }

  /** Once a check has raised, every longer run of checks has raised the same exception. */
  lemma {:induction false} ErrorPersists(s: map<Column, Value>, n: nat)
    requires 0 < n <= 7 && ChecksUpTo(s, n - 1).Ok? && CheckAt(s, n - 1).Err?
    ensures forall m :: n <= m <= 7 ==> ChecksUpTo(s, m) == CheckAt(s, n - 1)
  {
    var m := n;
    while m < 7
      invariant n <= m <= 7
      invariant forall k :: n <= k <= m ==> ChecksUpTo(s, k) == CheckAt(s, n - 1)
    {
      m := m + 1;
    }
  }

  /** The lines in strictly increasing rank: one line per factor at most, in the fixed order. */
  predicate Increasing(rs: seq<Reason>)
  {
    forall i, j :: 0 <= i < j < |rs| ==> ReasonRank(rs[i]) < ReasonRank(rs[j])
  }

  /**
   * The first `n` checks raise exactly when one of them raises; otherwise
   * their lines come in increasing rank below `n`, each line coming from
   * the check of its own rank.
   */
  lemma {:induction false} ChecksUpToSpec(s: map<Column, Value>, n: nat)
    requires n <= 7
    ensures ChecksUpTo(s, n).Err? <==> exists p :: 0 <= p < n && CheckAt(s, p).Err?
    ensures ChecksUpTo(s, n).Ok? ==> Increasing(ChecksUpTo(s, n).value)
    ensures ChecksUpTo(s, n).Ok? ==> forall x :: x in ChecksUpTo(s, n).value ==>
      ReasonRank(x) < n && CheckAt(s, ReasonRank(x)).Ok? && x in CheckAt(s, ReasonRank(x)).value
  {
    if n > 0 {
      ChecksUpToSpec(s, n - 1);
      var acc, next := ChecksUpTo(s, n - 1), CheckAt(s, n - 1);
      if acc.Ok? && next.Ok? {
        var rs := acc.value + next.value;
        forall i, j | 0 <= i < j < |rs|
          ensures ReasonRank(rs[i]) < ReasonRank(rs[j])
        {
          if j >= |acc.value| {
            assert rs[j] in next.value;
            if i < |acc.value| {
              assert rs[i] in acc.value;
            }
          }
        }
      }
    }
  }

  /**
   * `explain_prediction` raises exactly when a checked factor holds text.
   * Otherwise its lines are never empty, follow the fixed factor order with
   * at most one line per factor, and the neutral line appears only alone.
   */
  lemma ExplainSpec(s: map<Column, Value>)
    ensures ExplainReasons(s).Err? <==>
      (exists i :: 0 <= i < |Rules| && Rules[i].key in s && s[Rules[i].key].Text?) ||
      (exists k :: k in ExamKeys && k in s && s[k].Text?)
    ensures ExplainReasons(s).Ok? ==> |ExplainReasons(s).value| >= 1
    ensures ExplainReasons(s).Ok? ==> Increasing(ExplainReasons(s).value)
    ensures ExplainReasons(s).Ok? ==>
      (AllAverage in ExplainReasons(s).value <==> ExplainReasons(s).value == [AllAverage])
  {
    ChecksUpToSpec(s, 7);
    if exists i :: 0 <= i < |Rules| && Rules[i].key in s && s[Rules[i].key].Text? {
      var i :| 0 <= i < |Rules| && Rules[i].key in s && s[Rules[i].key].Text?;
      assert CheckAt(s, if i < 5 then i else 6).Err?;
    }
    if exists k :: k in ExamKeys && k in s && s[k].Text? {
      assert CheckAt(s, 5).Err?;
    }
    if ChecksUpTo(s, 7).Err? {
      var p :| 0 <= p < 7 && CheckAt(s, p).Err?;
      if p < 5 {
        assert Rules[p].key in s && s[Rules[p].key].Text?;
      } else if p == 6 {
        assert Rules[5].key in s && s[Rules[5].key].Text?;
      }
    }
  }

  /**
   * A factor's line depends on that factor's cell alone: an absent key or a
   * missing cell gives no line for it.
   */
  lemma AbsentFactorSilent(s: map<Column, Value>, i: nat, x: real)
    requires i < |Rules| && (Rules[i].key !in s || s[Rules[i].key] == Missing)
    requires ExplainReasons(s).Ok?
    ensures Concern(Rules[i].factor, x) !in ExplainReasons(s).value
    ensures Strength(Rules[i].factor, x) !in ExplainReasons(s).value
  {
    ChecksUpToSpec(s, 7);
    RulesInert();
    RuleSpec(Rules[i], s, x);
    var p := if i < 5 then i else 6;
    assert CheckAt(s, p) == ApplyRule(Rules[i], s) == Ok([]);
    assert FactorRank(Rules[i].factor) == p;
  }

  /**
   * Each factor's line in the explanation is its rule's line: a concern
   * exactly when the cell is a number passing the concern test, a strength
   * exactly when it fails that test and passes the strength test.
   */
  lemma ExplainFactor(s: map<Column, Value>, i: nat, x: real)
    requires i < |Rules| && ExplainReasons(s).Ok?
    ensures Concern(Rules[i].factor, x) in ExplainReasons(s).value <==>
      Rules[i].key in s && s[Rules[i].key] == Num(x) && Holds(Rules[i].concern, x)
    ensures Strength(Rules[i].factor, x) in ExplainReasons(s).value <==>
      Rules[i].key in s && s[Rules[i].key] == Num(x) && !Holds(Rules[i].concern, x) &&
      Rules[i].strength.Some? && Holds(Rules[i].strength.value, x)
  {
    ChecksUpToSpec(s, 7);
    RulesInert();
    RuleSpec(Rules[i], s, x);
    var p := if i < 5 then i else 6;
    assert CheckAt(s, p) == ApplyRule(Rules[i], s);
    assert FactorRank(Rules[i].factor) == p;
    ExplainIncludes(s, p);
  }

  /** When no check raised, every line of the check at `p` is in the explanation. */
  lemma ExplainIncludes(s: map<Column, Value>, p: nat)
    requires p < 7 && ExplainReasons(s).Ok?
    ensures CheckAt(s, p).Ok? && forall x :: x in CheckAt(s, p).value ==> x in ExplainReasons(s).value
  {
    ChecksUpToSpec(s, 7);
    IncludesFrom(s, p, 7);
  }

  lemma {:induction false} IncludesFrom(s: map<Column, Value>, p: nat, n: nat)
    requires p < n <= 7 && ChecksUpTo(s, n).Ok?
    ensures CheckAt(s, p).Ok? && forall x :: x in CheckAt(s, p).value ==> x in ChecksUpTo(s, n).value
  {
    if p < n - 1 {
      IncludesFrom(s, p, n - 1);
    }
  }

  // ---------------------------------------------------------------------
  // predict_student_risk
  // ---------------------------------------------------------------------

  /** The scaler and the classifier: a feature row to (P(no risk), P(risk)), None when they raise. */
  type Classifier = seq<Value> -> Option<(real, real)>

  /** The lowered decision threshold on P(risk). */
  const RiskThreshold: real := 0.25

  /** `1 if probability[1] >= RISK_THRESHOLD else 0`. */
  function Decide(pRisk: real): (prediction: int)
    ensures prediction == 0 || prediction == 1
    ensures prediction == 1 <==> pRisk >= 0.25
  {
    if pRisk >= RiskThreshold then 1 else 0
  }

  /** The feature columns the record lacks, in contract order. */
  function AbsentColumns(s: map<Column, Value>, cs: seq<Column>): (r: seq<Column>)
    ensures forall c :: c in r <==> c in cs && c !in s
    ensures |r| <= |cs|
  {
    if cs == [] then []
    else (if cs[0] in s then [] else [cs[0]]) + AbsentColumns(s, cs[1..])
  }

  /** The one-row feature frame `df[feature_columns]`. */
  function FeatureRow(s: map<Column, Value>, cs: seq<Column>): (row: seq<Value>)
    requires forall c :: c in cs ==> c in s
    ensures |row| == |cs| && forall j :: 0 <= j < |cs| ==> row[j] == s[cs[j]]
  {
    seq(|cs|, j requires 0 <= j < |cs| => s[cs[j]])
  }

  /**
   * The first feature cell holding text: `X.fillna(X.mean())` on the
   * one-row frame raises a TypeError on a text column.
   */
  function FirstTextFeature(s: map<Column, Value>, cs: seq<Column>): (r: Option<Column>)
    requires forall c :: c in cs ==> c in s
    ensures r.None? <==> forall c :: c in cs ==> !s[c].Text?
    ensures r.Some? ==> r.value in cs && s[r.value].Text?
  {
    if cs == [] then None
    else if s[cs[0]].Text? then Some(cs[0])
    else FirstTextFeature(s, cs[1..])
  }

  /**
   * The class probabilities of a record; None when a feature column is
   * absent, when a feature cell holds text (the mean raises), or when the
   * scaler or classifier raises. A missing cell reaches the classifier as
   * it is: the mean of a one-row column with no value is itself missing.
   */
  function Score(s: map<Column, Value>, m: Classifier): (r: Option<(real, real)>)
    ensures (exists c :: c in GetFeatureColumns() && c !in s) ==> r.None?
    ensures (exists c :: c in GetFeatureColumns() && c in s && s[c].Text?) ==> r.None?
    ensures (forall c :: c in GetFeatureColumns() ==> c in s && !s[c].Text?) ==>
      r == m(FeatureRow(s, GetFeatureColumns()))
  {
    var features := GetFeatureColumns();
    var absent := AbsentColumns(s, features);
    if absent != [] then
      assert absent[0] in absent;
      None
    else if FirstTextFeature(s, features).Some? then None
    else m(FeatureRow(s, features))
  }

  /** The returned dictionary. */
  datatype RiskReport = RiskReport(interpretation: Interpretation, probabilityNoRisk: real,
                                   probabilityRisk: real, reasons: seq<Reason>)

  /** The report of a scored record: the tier and confidence read from the predicted class's probability. */
  function Report(p: (real, real), reasons: seq<Reason>): (r: RiskReport)
    ensures r.interpretation.prediction == Decide(p.1)
    ensures r.probabilityNoRisk == p.0 && r.probabilityRisk == p.1 && r.reasons == reasons
    ensures r.interpretation == InterpretPrediction(Decide(p.1), if p.1 >= 0.25 then p.1 else p.0, None)
  {
    var prediction := Decide(p.1);
    var chosen := if prediction == 1 then p.1 else p.0;
    RiskReport(InterpretPrediction(prediction, chosen, None), p.0, p.1, reasons)
  }

  /**
   * `predict_student_risk` on a record, as written: the model is loaded
   * first, then the feature columns are checked, then the mean fill
   * rejects a text cell, then the row is scored,
   * and the tier and confidence are read from the probability of the
   * predicted class.
   */
  function PredictStudentRisk(s: map<Column, Value>, model: Option<Classifier>, modelName: string): (r: Result<RiskReport>)
    ensures model.None? ==> r == Err(ArtifactNotFound(modelName))
    ensures model.Some? && AbsentColumns(s, GetFeatureColumns()) != [] ==>
      r == Err(MissingColumns(AbsentColumns(s, GetFeatureColumns())))
    ensures (model.Some? && AbsentColumns(s, GetFeatureColumns()) == [] &&
      FirstTextFeature(s, GetFeatureColumns()).Some?) ==>
      r == Err(TypeMismatch(FirstTextFeature(s, GetFeatureColumns()).value))
    ensures r.Ok? <==> model.Some? && Score(s, model.value).Some? && ExplainReasons(s).Ok?
    ensures r.Ok? ==> r.value == Report(Score(s, model.value).value, ExplainReasons(s).value)
  {
    if model.None? then Err(ArtifactNotFound(modelName))
    else
      var features := GetFeatureColumns();
      var absent := AbsentColumns(s, features);
      if absent != [] then Err(MissingColumns(absent))
      else
        match FirstTextFeature(s, features)
        case Some(c) => Err(TypeMismatch(c))
        case None =>
          match model.value(FeatureRow(s, features))
          case None => Err(ScoringFailed)
          case Some(p) =>
            match ExplainReasons(s)
            case Err(e) => Err(e)
            case Ok(reasons) => Ok(Report(p, reasons))
  }

  /** A record lacking a feature column fails before the classifier is consulted. */
  lemma MissingColumnsBeforeScoring(s: map<Column, Value>, f: Classifier, g: Classifier, name: string)
    requires exists c :: c in GetFeatureColumns() && c !in s
    ensures PredictStudentRisk(s, Some(f), name) == PredictStudentRisk(s, Some(g), name)
    ensures PredictStudentRisk(s, Some(f), name).Err? && PredictStudentRisk(s, Some(f), name).error.MissingColumns?
  {
    var c :| c in GetFeatureColumns() && c !in s;
    assert c in AbsentColumns(s, GetFeatureColumns());
  }

  /**
   * As written, a "no risk" decision with probabilities summing to 1 feeds
   * P(no risk) > 0.75 into the tier rule: the student is reported as high
   * risk with confidence above 75.
   */
  lemma NoRiskDecisionReadsHigh(p: (real, real), reasons: seq<Reason>)
    requires p.0 + p.1 == 1.0 && Report(p, reasons).interpretation.prediction == 0
    ensures Report(p, reasons).interpretation.level == High
    ensures Report(p, reasons).interpretation.confidence > 75.0
  {
  }

  /**
   * The evidently intended report: the tier and confidence come from
   * P(risk), passed as `risk_probability`.
   */
  function ReportCorrected(p: (real, real), reasons: seq<Reason>): (r: RiskReport)
    ensures r.interpretation.prediction == Decide(p.1)
    ensures r.probabilityNoRisk == p.0 && r.probabilityRisk == p.1 && r.reasons == reasons
    ensures r.interpretation == InterpretPrediction(Decide(p.1), if p.1 >= 0.25 then p.1 else p.0, Some(p.1))
  {
    var prediction := Decide(p.1);
    var chosen := if prediction == 1 then p.1 else p.0;
    RiskReport(InterpretPrediction(prediction, chosen, Some(p.1)), p.0, p.1, reasons)
  }

  /**
   * With the correction the tier and the decision agree: a "no risk"
   * decision always reads as low risk, any other tier means a risk
   * decision, and the tier never falls as P(risk) rises.
   */
  lemma CorrectedTierAgreesWithDecision(p: (real, real), q: (real, real), reasons: seq<Reason>)
    ensures var r := ReportCorrected(p, reasons).interpretation;
      (r.prediction == 0 ==> r.level == Low) && (r.level != Low ==> r.prediction == 1)
    ensures p.1 <= q.1 ==> TierRank(ReportCorrected(p, reasons).interpretation.level) <=
                           TierRank(ReportCorrected(q, reasons).interpretation.level)
  {
    if p.1 <= q.1 {
      TierMonotone(p.1, q.1);
    }
  }

  // ---------------------------------------------------------------------
  // predict_academic_performance
  // ---------------------------------------------------------------------

  /** `dict.get(key, default)` on a record of numbers. */
  function NumOr(s: map<Column, real>, key: Column, default: real): real
  {
    if key in s then s[key] else default
  }

  function StudyDelta(hours: real): real
  {
    if hours >= 10.0 then 0.5 else if hours >= 7.0 then 0.2 else 0.0
  }

  function AttendanceDelta(percent: real): real
  {
    if percent >= 90.0 then 0.3 else if percent >= 80.0 then 0.1 else if percent < 70.0 then -0.4 else 0.0
  }

  function SleepDelta(hours: real): real
  {
    if hours >= 7.0 then 0.2 else if hours < 6.0 then -0.3 else 0.0
  }

  function StressDelta(level: real): real
  {
    if level >= 4.0 then -0.4 else if level >= 3.0 then -0.2 else 0.0
  }

  function WorkDelta(hours: real): real
  {
    if hours > 30.0 then -0.5 else if hours > 20.0 then -0.2 else 0.0
  }

  /** The inputs of the outlook with their defaults. */
  datatype Habits = Habits(current: real, study: real, attendance: real, stress: real, sleep: real, work: real)

  function HabitsOf(s: map<Column, real>): Habits
  {
    Habits(NumOr(s, Feature(StudyAverage), 7.0), NumOr(s, Feature(SelfStudy), 10.0),
           NumOr(s, Feature(Attendance), 85.0), NumOr(s, Feature(Stress), 3.0),
           NumOr(s, Feature(Sleep), 7.0), NumOr(s, Feature(Work), 20.0))
  }

  /** The total adjustment to the current average: between -1.6 and +1.0. */
  function GradeDelta(h: Habits): (d: real)
    ensures -1.6 <= d <= 1.0
  {
    StudyDelta(h.study) + AttendanceDelta(h.attendance) + SleepDelta(h.sleep) +
    StressDelta(h.stress) + WorkDelta(h.work)
  }

  /** `max(1, min(10, x))`. */
  function ClampGrade(x: real): (r: real)
    ensures 1.0 <= r <= 10.0
    ensures 1.0 <= x <= 10.0 ==> r == x
    ensures x > 10.0 ==> r == 10.0
    ensures x < 1.0 ==> r == 1.0
  {
    var y := if x < 10.0 then x else 10.0;
    if y > 1.0 then y else 1.0
  }

  datatype Trend = Improving | Worsening | Steady

  /** The trend with a dead zone of ±0.3 around no change. */
  function TrendOf(diff: real): (t: Trend)
    ensures t == Improving <==> diff > 0.3
    ensures t == Worsening <==> diff < -0.3
    ensures t == Steady <==> -0.3 <= diff <= 0.3
  {
    if diff > 0.3 then Improving else if diff < -0.3 then Worsening else Steady
  }

  function TrendLabel(t: Trend): string
  {
    match t
    case Improving => "📈 GERĖS"
    case Worsening => "📉 BLOGĖS"
    case Steady => "➡️ STABILŪS"
  }

  function TrendColor(t: Trend): string
  {
    match t
    case Improving => "success"
    case Worsening => "error"
    case Steady => "info"
  }

  /** The returned dictionary, without the formatted message. */
  datatype Outlook = Outlook(current: real, predicted: real, trend: Trend, diff: real)

  /**
   * `predict_academic_performance`: the current average adjusted factor by
   * factor, clamped to the grade scale, and the trend of the change.
   */
  method PredictAcademicPerformance(s: map<Column, real>) returns (r: Outlook)
    ensures r.current == HabitsOf(s).current
    ensures r.predicted == ClampGrade(r.current + GradeDelta(HabitsOf(s)))
    ensures 1.0 <= r.predicted <= 10.0
    ensures r.diff == r.predicted - r.current && r.trend == TrendOf(r.diff)
  {
    var current := NumOr(s, Feature(StudyAverage), 7.0);
    var study := NumOr(s, Feature(SelfStudy), 10.0);
    var attendance := NumOr(s, Feature(Attendance), 85.0);
    var stress := NumOr(s, Feature(Stress), 3.0);
    var sleep := NumOr(s, Feature(Sleep), 7.0);
    var work := NumOr(s, Feature(Work), 20.0);
    var predicted := current;
    if study >= 10.0 {
      predicted := predicted + 0.5;
    } else if study >= 7.0 {
      predicted := predicted + 0.2;
    }
    assert predicted == current + StudyDelta(study);
    if attendance >= 90.0 {
      predicted := predicted + 0.3;
    } else if attendance >= 80.0 {
      predicted := predicted + 0.1;
    } else if attendance < 70.0 {
      predicted := predicted - 0.4;
    }
    assert predicted == current + StudyDelta(study) + AttendanceDelta(attendance);
    if sleep >= 7.0 {
      predicted := predicted + 0.2;
    } else if sleep < 6.0 {
      predicted := predicted - 0.3;
    }
    assert predicted == current + StudyDelta(study) + AttendanceDelta(attendance) + SleepDelta(sleep);
    if stress >= 4.0 {
      predicted := predicted - 0.4;
    } else if stress >= 3.0 {
      predicted := predicted - 0.2;
    }
    assert predicted == current + StudyDelta(study) + AttendanceDelta(attendance) + SleepDelta(sleep) + StressDelta(stress);
    if work > 30.0 {
      predicted := predicted - 0.5;
    } else if work > 20.0 {
      predicted := predicted - 0.2;
    }
    assert predicted == current + GradeDelta(HabitsOf(s));
    predicted := ClampGrade(predicted);
    var diff := predicted - current;
    var trend;
    if diff > 0.3 {
      trend := Improving;
    } else if diff < -0.3 {
      trend := Worsening;
    } else {
      trend := Steady;
    }
    return Outlook(current, predicted, trend, diff);
  }

  /** Inside the grade scale the change is exactly the adjustment, so it lies in [-1.6, +1.0]. */
  lemma UnclampedChange(h: Habits)
    requires 1.0 <= h.current + GradeDelta(h) <= 10.0
    ensures ClampGrade(h.current + GradeDelta(h)) - h.current == GradeDelta(h)
    ensures -1.6 <= ClampGrade(h.current + GradeDelta(h)) - h.current <= 1.0
  {
  }

  /** On the grade scale the clamp never widens the change: the change stays in [-1.6, +1.0]. */
  lemma ChangeBounds(h: Habits)
    requires 1.0 <= h.current <= 10.0
    ensures -1.6 <= ClampGrade(h.current + GradeDelta(h)) - h.current <= 1.0
  {
  }

  /**
   * Better habits never lower the outlook: more study, attendance and
   * sleep, less stress and work give an adjustment at least as large.
   */
  lemma GradeDeltaMonotone(h: Habits, g: Habits)
    requires h.study <= g.study && h.attendance <= g.attendance && h.sleep <= g.sleep
    requires h.stress >= g.stress && h.work >= g.work
    ensures GradeDelta(h) <= GradeDelta(g)
  {
  }

  /** A student who gives no answers is expected to improve by 0.6: to 7.6 from the default 7. */
  lemma DefaultStudentImproves()
    ensures GradeDelta(HabitsOf(map[])) == 0.6
    ensures ClampGrade(HabitsOf(map[]).current + 0.6) == 7.6
    ensures TrendOf(7.6 - 7.0) == Improving
  {
  }

  // ---------------------------------------------------------------------
  // predict_batch
  // ---------------------------------------------------------------------

  /** One row of the predictions file; a failed row has no prediction and level "ERROR". */
  datatype BatchRow = BatchRow(index: nat, prediction: Option<int>, riskLevel: string,
                               confidence: real, probabilityRisk: real)

  /** The row the loop appends for the student at `index`. */
  function BatchRowOf(index: nat, r: Result<RiskReport>): (row: BatchRow)
    ensures row.index == index
    ensures row.prediction.None? <==> r.Err?
    ensures r.Err? ==> row.riskLevel == "ERROR" && row.confidence == 0.0 && row.probabilityRisk == 0.0
    ensures r.Ok? ==> (row.prediction == Some(r.value.interpretation.prediction) &&
      row.riskLevel == RiskLevel(r.value.interpretation) &&
      row.confidence == r.value.interpretation.confidence && row.probabilityRisk == r.value.probabilityRisk)
  {
    match r
    case Err(_) => BatchRow(index, None, "ERROR", 0.0, 0.0)
    case Ok(v) => BatchRow(index, Some(v.interpretation.prediction), RiskLevel(v.interpretation),
                           v.interpretation.confidence, v.probabilityRisk)
  }

  /**
   * `predict_batch`: every row predicted on its own, a failure recorded as
   * an error row instead of stopping the run; one output row per input
   * row, in input order.
   */
  method PredictBatch(rows: seq<map<Column, Value>>, model: Option<Classifier>, modelName: string)
    returns (out: seq<BatchRow>)
    ensures |out| == |rows|
    ensures forall i :: 0 <= i < |rows| ==> out[i] == BatchRowOf(i, PredictStudentRisk(rows[i], model, modelName))
  {
    out := [];
    var i := 0;
    while i < |rows|
      invariant 0 <= i <= |rows| && |out| == i
      invariant forall k :: 0 <= k < i ==> out[k] == BatchRowOf(k, PredictStudentRisk(rows[k], model, modelName))
    {
      var result := PredictStudentRisk(rows[i], model, modelName);
      out := out + [BatchRowOf(i, result)];
      i := i + 1;
    }
  }

  /** A batch row reports risk exactly when P(risk) reached the threshold for that student. */
  lemma BatchRowDecision(index: nat, s: map<Column, Value>, m: Classifier, name: string)
    requires PredictStudentRisk(s, Some(m), name).Ok?
    ensures Score(s, m).Some? &&
      BatchRowOf(index, PredictStudentRisk(s, Some(m), name)).prediction == Some(if Score(s, m).value.1 >= 0.25 then 1 else 0)
  {
  }
}
