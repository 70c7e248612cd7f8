/*
 * The second generator script: synthetic at-risk students derived from
 * the real at-risk rows of the survey. Each synthetic row starts from a
 * sampled real row; every numeric field gets noise and is clipped to its
 * interval, the two stress scores move by a whole step, the intent score
 * is drawn from {4, 5} and the label is 1. The script's main part cleans
 * the survey, stops when there is no at-risk row, and appends the
 * synthetic rows to the cleaned survey rows.
 */
module BetterSynthetic {
  import opened Schema
  import opened Table
  import opened Numbers
  import opened Utils
  import opened Random
  import Train

  // ---------------------------------------------------------------------
  // One synthetic row
  // ---------------------------------------------------------------------

  /** The clip interval of each generated field. */
  function ClipBounds(f: Feature): (real, real)
  {
    match f
    case Exam1 => (0.0, 100.0)
    case Exam2 => (0.0, 100.0)
    case Exam3 => (0.0, 100.0)
    case Attendance => (0.0, 100.0)
    case SelfStudy => (0.0, 60.0)
    case Work => (0.0, 60.0)
    case SocialMedia => (0.0, 24.0)
    case HighSchoolAverage => (0.0, 10.0)
    case StudyAverage => (0.0, 10.0)
    case Sleep => (3.0, 12.0)
    case Stress => (1.0, 5.0)
    case FinancialStress => (1.0, 5.0)
  }

  /** The two stress scores move by a whole step of -1, 0 or 1; the rest get Gaussian noise. */
  predicate Stepped(f: Feature)
  {
    f == Stress || f == FinancialStress
  }

  /**
   * What a generated cell may hold: a number inside the field's clip
   * interval (a whole number for a stepped field), or, for a noisy field
   * whose base is missing, a missing cell (NaN survives `np.clip`).
   */
  predicate InClip(f: Feature, v: Value)
  {
    match v
    case Text(_) => false
    case Missing => !Stepped(f)
    case Num(x) => ClipBounds(f).0 <= x <= ClipBounds(f).1 && (Stepped(f) ==> x == x.Floor as real)
  }

  /** A base cell the script can perturb without raising. */
  predicate Perturbable(v: Value, f: Feature)
  {
    v.Num? || (v.Missing? && !Stepped(f))
  }

  /**
   * One field of the new row: `np.clip(base + noise, lo, hi)`, or for a
   * stepped field `np.clip(int(base + step), 1, 5)`. Text in the base
   * raises a TypeError; `int()` of a missing base raises a ValueError.
   */
  function Perturb(base: Value, f: Feature, noise: real, step: int): (r: Result<Value>)
    ensures r.Ok? <==> Perturbable(base, f)
    ensures r.Ok? ==> InClip(f, r.value)
    ensures base.Text? ==> r == Err(TypeMismatch(Feature(f)))
    ensures base.Missing? && Stepped(f) ==> r == Err(NaNToInteger(Feature(f)))
  {
    match base
    case Text(_) => Err(TypeMismatch(Feature(f)))
    case Missing => if Stepped(f) then Err(NaNToInteger(Feature(f))) else Ok(Missing)
    case Num(x) =>
      if Stepped(f) then
        var k := ClipInt(Trunc(x + step as real), 1, 5);
        assert (k as real).Floor == k;
        Ok(Num(k as real))
      else Ok(Num(Clip(x + noise, ClipBounds(f).0, ClipBounds(f).1)))
  }

  /** The clip only acts outside the interval: noise that stays inside is kept as drawn. */
  lemma NoiseKeptInside(x: real, f: Feature, noise: real, step: int)
    requires !Stepped(f) && ClipBounds(f).0 <= x + noise <= ClipBounds(f).1
    ensures Perturb(Num(x), f, noise, step) == Ok(Num(x + noise))
  {
  }

  /**
   * A step of at most one moves a stress score by less than two before
   * clipping, and by exactly the step when the score is whole; a whole
   * score inside [1, 5] ends at most one away from where it started.
   */
  lemma StepDistance(x: real, f: Feature, noise: real, step: int)
    requires Stepped(f) && -1 <= step <= 1
    ensures x - 2.0 < Trunc(x + step as real) as real < x + 2.0
    ensures x == x.Floor as real ==> Trunc(x + step as real) == x.Floor + step
    ensures x == x.Floor as real && 1.0 <= x <= 5.0 ==>
      x - 1.0 <= Perturb(Num(x), f, noise, step).value.x <= x + 1.0
  {
    if x == x.Floor as real {
      TruncWhole(x.Floor + step);
      assert x + step as real == (x.Floor + step) as real;
    }
  }

  /**
   * The field written at step `k` of a row: the three exams, self-study,
   * social media, attendance, the 12th-grade average, work, sleep, the two
   * stress scores, and last the study average.
   */
  function FieldAt(k: nat): Feature
    requires k < 12
  {
    if k == 0 then Exam1 else if k == 1 then Exam2 else if k == 2 then Exam3
    else if k == 3 then SelfStudy else if k == 4 then SocialMedia else if k == 5 then Attendance
    else if k == 6 then HighSchoolAverage else if k == 7 then Work else if k == 8 then Sleep
    else if k == 9 then Stress else if k == 10 then FinancialStress else StudyAverage
  }

  /** The step at which a field is written. */
  function Position(f: Feature): (k: nat)
    ensures k < 12 && FieldAt(k) == f
  {
    match f
    case Exam1 => 0
    case Exam2 => 1
    case Exam3 => 2
    case SelfStudy => 3
    case SocialMedia => 4
    case Attendance => 5
    case HighSchoolAverage => 6
    case Work => 7
    case Sleep => 8
    case Stress => 9
    case FinancialStress => 10
    case StudyAverage => 11
  }

  /** Each step writes one field, so positions and steps correspond. */
  lemma PositionOfField(k: nat)
    requires k < 12
    ensures Position(FieldAt(k)) == k
  {
  }

  /** The fields written from step `k` on; the study average only when the base rows have it. */
  function FieldsFrom(k: nat, withAverage: bool): (fields: seq<Feature>)
    requires k <= 12
    ensures forall f :: f in fields <==> k <= Position(f) && (f != StudyAverage || withAverage)
    decreases 12 - k
  {
    if k == 12 then []
    else if k == 11 && !withAverage then []
    else
      PositionOfField(k);
      [FieldAt(k)] + FieldsFrom(k + 1, withAverage)
  }

  /** All the fields of a new row, in the order they are written. */
  function Fields(withAverage: bool): (fields: seq<Feature>)
    ensures forall f :: f in fields <==> f != StudyAverage || withAverage
  {
    FieldsFrom(0, withAverage)
  }

  const StepChoices: seq<int> := [-1, 0, 1]
  const IntentChoices: seq<int> := [4, 5]

  /** Call sites of the draws: the sampled base row, the intent score, then one per field from FieldSite on. */
  const SampleSite: nat := 0
  const IntentSite: nat := 1
  const FieldSite: nat := 2

  /**
   * The given fields of the new row, filled from the base row in order;
   * the first field that is absent from the base (KeyError) or that
   * cannot be perturbed gives the error.
   */
  function Fill(base: map<Column, Value>, fields: seq<Feature>, site: nat, row: nat, rng: Rng): (r: Result<map<Column, Value>>)
    ensures r.Ok? <==> forall f :: f in fields ==> Feature(f) in base && Perturbable(base[Feature(f)], f)
    ensures r.Ok? ==> forall f :: Feature(f) in r.value <==> f in fields
    ensures r.Ok? ==> Intent !in r.value && Risk !in r.value && forall n :: Other(n) !in r.value
    ensures r.Ok? ==> forall c :: c in r.value ==> c.Feature? && InClip(c.f, r.value[c])
    decreases |fields|
  {
    if fields == [] then Ok(map[])
    else
      assert forall f :: f in fields <==> f == fields[0] || f in fields[1..];
      var c := Feature(fields[0]);
      if c !in base then Err(KeyNotFound(c))
      else
        match Perturb(base[c], fields[0], rng.draw(row, site), Choice(rng, row, site, StepChoices))
        case Err(e) => Err(e)
        case Ok(v) =>
          match Fill(base, fields[1..], site + 1, row, rng)
          case Err(e) => Err(e)
          case Ok(m) => Ok(m[c := v])
  }

  /** The keys of a synthetic row. */
  predicate RowKey(c: Column, withAverage: bool)
  {
    match c
    case Feature(f) => f != StudyAverage || withAverage
    case Other(_) => false
    case _ => true
  }

  /** The feature columns of the given fields, in order. */
  function FeatureColumnsOf(fields: seq<Feature>): (cs: seq<Column>)
    ensures forall c :: c in cs <==> c.Feature? && c.f in fields
  {
    if fields == [] then []
    else [Feature(fields[0])] + FeatureColumnsOf(fields[1..])
  }

  /** The columns of a synthetic row, in the order the row is built. */
  function RowOrder(withAverage: bool): (order: seq<Column>)
    ensures forall c :: c in order <==> RowKey(c, withAverage)
  {
    FeatureColumnsOf(Fields(withAverage)) + [Intent, Risk]
  }

  /** The filled fields plus the intent score and the label are the keys of a synthetic row. */
  lemma RowKeys(m: map<Column, Value>, withAverage: bool, intent: int)
    requires forall f :: Feature(f) in m <==> f in Fields(withAverage)
    requires Intent !in m && Risk !in m && forall n :: Other(n) !in m
    ensures forall c :: c in m[Intent := Num(intent as real)][Risk := Num(1.0)] <==> RowKey(c, withAverage)
  {
  }

  /** What every synthetic row holds: fields inside their clip intervals, intent 4 or 5, label 1. */
  predicate GeneratedCells(m: map<Column, Value>)
  {
    (forall c :: c in m && c.Feature? ==> InClip(c.f, m[c])) &&
    Intent in m && m[Intent] in {Num(4.0), Num(5.0)} && Risk in m && m[Risk] == Num(1.0)
  }

  /** Adding the intent score and the label leaves the filled cells as they were. */
  lemma LabelsKeepCells(m: map<Column, Value>, intent: int)
    requires forall c :: c in m ==> c.Feature? && InClip(c.f, m[c])
    requires intent == 4 || intent == 5
    ensures GeneratedCells(m[Intent := Num(intent as real)][Risk := Num(1.0)])
  {
    var r := m[Intent := Num(intent as real)][Risk := Num(1.0)];
    forall c | c in r && c.Feature?
      ensures InClip(c.f, r[c])
    {
      assert c in m && r[c] == m[c];
    }
  }

  /** A filled row with the intent score and the label added. */
  function WithLabels(m: map<Column, Value>, withAverage: bool, intent: int): (r: map<Column, Value>)
    requires forall f :: Feature(f) in m <==> f in Fields(withAverage)
    requires Intent !in m && Risk !in m && forall n :: Other(n) !in m
    requires forall c :: c in m ==> c.Feature? && InClip(c.f, m[c])
    requires intent == 4 || intent == 5
    ensures forall c :: c in r <==> RowKey(c, withAverage)
    ensures GeneratedCells(r)
  {
    RowKeys(m, withAverage, intent);
    LabelsKeepCells(m, intent);
    m[Intent := Num(intent as real)][Risk := Num(1.0)]
  }

  /**
   * A new row built from a base row: every field perturbed, then the
   * intent drawn from {4, 5} and the label set to 1.
   */
  function Student(base: map<Column, Value>, withAverage: bool, row: nat, rng: Rng): (r: Result<map<Column, Value>>)
    ensures r.Ok? <==> Fill(base, Fields(withAverage), FieldSite, row, rng).Ok?
    ensures r.Ok? ==> forall c :: c in r.value <==> RowKey(c, withAverage)
    ensures r.Ok? ==> GeneratedCells(r.value)
  {
    match Fill(base, Fields(withAverage), FieldSite, row, rng)
    case Err(e) => Err(e)
    case Ok(m) =>
      var intent := Choice(rng, row, IntentSite, IntentChoices);
      assert intent == 4 || intent == 5;
      Ok(WithLabels(m, withAverage, intent))
  }

  /**
   * One iteration of the generator loop: a row of `real_risk_df` sampled
   * as the base (a ValueError on an empty frame), then the new row built
   * from it.
   */
  function NewStudent(realRisk: Frame, row: nat, rng: Rng): (r: Result<map<Column, Value>>)
    requires WellFormed(realRisk)
    ensures realRisk.height == 0 ==> r == Err(EmptySample)
  {
    if realRisk.height == 0 then Err(EmptySample)
    else
      var base := RowAt(realRisk, SampleRow(rng, row, SampleSite, realRisk.height));
      Student(base, Feature(StudyAverage) in realRisk.names, row, rng)
  }

  /** A synthetic row has exactly the keys of a synthetic row and holds what one holds. */
  lemma NewStudentRow(realRisk: Frame, row: nat, rng: Rng)
    requires WellFormed(realRisk) && NewStudent(realRisk, row, rng).Ok?
    ensures forall c :: c in NewStudent(realRisk, row, rng).value <==> RowKey(c, Feature(StudyAverage) in realRisk.names)
    ensures GeneratedCells(NewStudent(realRisk, row, rng).value)
  {
  }

  /** A base frame with a number in every written field of every row never makes a row fail. */
  lemma NewStudentSucceeds(realRisk: Frame, row: nat, rng: Rng)
    requires WellFormed(realRisk) && realRisk.height > 0
    requires forall f :: RowKey(Feature(f), Feature(StudyAverage) in realRisk.names) ==>
      Feature(f) in realRisk.names && forall i :: 0 <= i < realRisk.height ==> Get(realRisk, Feature(f))[i].Num?
    ensures NewStudent(realRisk, row, rng).Ok?
  {
    var withAverage := Feature(StudyAverage) in realRisk.names;
    var idx := SampleRow(rng, row, SampleSite, realRisk.height);
    var base := RowAt(realRisk, idx);
    forall f | f in Fields(withAverage)
      ensures Feature(f) in base && Perturbable(base[Feature(f)], f)
    {
      assert RowKey(Feature(f), withAverage);
      assert base[Feature(f)] == Get(realRisk, Feature(f))[idx];
    }
    assert Fill(base, Fields(withAverage), FieldSite, row, rng).Ok?;
  }

  /** The row at `i` of a frame holds what a synthetic row holds. */
  predicate GeneratedRow(f: Frame, i: nat)
    requires WellFormed(f) && i < f.height
  {
    (forall g :: InClip(g, ColumnOrMissing(f, Feature(g))[i])) &&
    ColumnOrMissing(f, Intent)[i] in {Num(4.0), Num(5.0)} &&
    ColumnOrMissing(f, Risk)[i] == Num(1.0)
  }

  /** A cell of `pd.DataFrame(rows)`: the row's entry, or a missing cell where the row has none. */
  lemma FrameCell(rows: seq<map<Column, Value>>, order: seq<Column>, i: nat, c: Column)
    requires i < |rows| && forall d :: d in rows[i] ==> d in order
    ensures ColumnOrMissing(FrameOfRows(rows, order), c)[i] == if c in rows[i] then rows[i][c] else Missing
  {
    if c in order {
      FrameOfRowsAt(rows, order, i, c);
    }
  }

  /** `pd.DataFrame(synthetic)` carries every row's cells into the frame. */
  lemma GeneratedFrame(rows: seq<map<Column, Value>>, withAverage: bool, i: nat)
    requires i < |rows|
    requires forall c :: c in rows[i] <==> RowKey(c, withAverage)
    requires GeneratedCells(rows[i])
    ensures GeneratedRow(FrameOfRows(rows, RowOrder(withAverage)), i)
  {
    var order := RowOrder(withAverage);
    forall g
      ensures InClip(g, ColumnOrMissing(FrameOfRows(rows, order), Feature(g))[i])
    {
      FrameCell(rows, order, i, Feature(g));
    }
    FrameCell(rows, order, i, Intent);
    FrameCell(rows, order, i, Risk);
  }

  /**
   * The first `n` iterations of a loop that builds one row per iteration
   * and appends it: the rows built so far, or the error of the first
   * iteration that raised.
   */
  function Loop(build: nat -> Result<map<Column, Value>>, n: nat): (r: Result<seq<map<Column, Value>>>)
    ensures r.Ok? <==> forall i :: 0 <= i < n ==> build(i).Ok?
    ensures r.Ok? ==> |r.value| == n && forall i :: 0 <= i < n ==> build(i) == Ok(r.value[i])
  {
    if n == 0 then Ok([])
    else
      match Loop(build, n - 1)
      case Err(e) => Err(e)
      case Ok(rows) =>
        match build(n - 1)
        case Err(e) => Err(e)
        case Ok(m) => Ok(rows + [m])
  }

  /** Once an iteration raises, the loop's outcome is that error. */
  lemma {:induction false} LoopStops(build: nat -> Result<map<Column, Value>>, k: nat, n: nat)
    requires k <= n && Loop(build, k).Err?
    ensures Loop(build, n) == Loop(build, k)
    decreases n - k
  {
    if k < n {
      LoopStops(build, k, n - 1);
    }
  }

  /** The loop's error is the error of its first failing iteration. */
  lemma {:induction false} LoopFirstError(build: nat -> Result<map<Column, Value>>, n: nat)
    requires Loop(build, n).Err?
    ensures exists i :: 0 <= i < n && build(i) == Err(Loop(build, n).error) && forall k :: 0 <= k < i ==> build(k).Ok?
  {
    if Loop(build, n - 1).Err? {
      LoopFirstError(build, n - 1);
    } else {
      assert build(n - 1) == Err(Loop(build, n).error);
    }
  }

  /** The body of the generator loop: iteration `i` builds NewStudent's row `i`. */
  function Builder(realRisk: Frame, rng: Rng): nat -> Result<map<Column, Value>>
    requires WellFormed(realRisk)
  {
    (i: nat) => NewStudent(realRisk, i, rng)
  }

  /**
   * `generate_realistic_from_real_15`: `n` rows, one per loop iteration,
   * each built by NewStudent; the first failing iteration's error.
   */
  method GenerateRealisticFromReal(realRisk: Frame, n: nat, rng: Rng) returns (r: Result<Frame>)
    requires WellFormed(realRisk)
    ensures r.Err? <==> Loop(Builder(realRisk, rng), n).Err?
    ensures r.Err? ==> r.error == Loop(Builder(realRisk, rng), n).error
    ensures r.Ok? ==> r.value == FrameOfRows(Loop(Builder(realRisk, rng), n).value, RowOrder(Feature(StudyAverage) in realRisk.names))
  {
    var synthetic: seq<map<Column, Value>> := [];
    for i := 0 to n
      invariant Loop(Builder(realRisk, rng), i) == Ok(synthetic)
    {
      var student := NewStudent(realRisk, i, rng);
      assert Builder(realRisk, rng)(i) == student;
      if student.Err? {
        assert Loop(Builder(realRisk, rng), i + 1) == Err(student.error);
        LoopStops(Builder(realRisk, rng), i + 1, n);
        return Err(student.error);
      }
      synthetic := synthetic + [student.value];
    }
    r := Ok(FrameOfRows(synthetic, RowOrder(Feature(StudyAverage) in realRisk.names)));
  }

  /**
   * What the generator promises: `n` rows in the order of a synthetic row,
   * every row with its fields inside their clip intervals, an intent of 4
   * or 5 and the label 1; no row at all from an empty base frame.
   */
  lemma GeneratedSample(realRisk: Frame, n: nat, rng: Rng)
    requires WellFormed(realRisk)
    ensures n > 0 && realRisk.height == 0 ==> Loop(Builder(realRisk, rng), n) == Err(EmptySample)
    ensures Loop(Builder(realRisk, rng), n).Ok? ==>
      var f := FrameOfRows(Loop(Builder(realRisk, rng), n).value, RowOrder(Feature(StudyAverage) in realRisk.names));
      WellFormed(f) && f.height == n &&
      (n > 0 ==> f.names == RowOrder(Feature(StudyAverage) in realRisk.names)) &&
      forall i :: 0 <= i < n ==> GeneratedRow(f, i)
  {
    var build := Builder(realRisk, rng);
    if n > 0 && realRisk.height == 0 {
      assert Loop(build, 1) == Err(EmptySample);
      LoopStops(build, 1, n);
    }
    if Loop(build, n).Ok? {
      var rows := Loop(build, n).value;
      forall k | 0 <= k < |rows|
        ensures NewStudent(realRisk, k, rng) == Ok(rows[k])
      {
        assert build(k) == Ok(rows[k]);
      }
      GeneratedRows(realRisk, rng, rows);
    }
  }

  /** Rows that NewStudent built make a frame whose every row holds what a synthetic row holds. */
  lemma GeneratedRows(realRisk: Frame, rng: Rng, rows: seq<map<Column, Value>>)
    requires WellFormed(realRisk)
    requires forall k :: 0 <= k < |rows| ==> NewStudent(realRisk, k, rng) == Ok(rows[k])
    ensures forall i :: 0 <= i < |rows| ==>
      GeneratedRow(FrameOfRows(rows, RowOrder(Feature(StudyAverage) in realRisk.names)), i)
  {
    var withAverage := Feature(StudyAverage) in realRisk.names;
    forall i | 0 <= i < |rows|
      ensures GeneratedRow(FrameOfRows(rows, RowOrder(withAverage)), i)
    {
      NewStudentRow(realRisk, i, rng);
      GeneratedFrame(rows, withAverage, i);
    }
  }

  // ---------------------------------------------------------------------
  // The script's main part
  // ---------------------------------------------------------------------

  /** How many synthetic rows the script asks for. */
  const SyntheticCount: nat := 80

  /**
   * The eleven feature columns cleaned with the text clean-up, in the
   * script's order: attendance, self-study, stress, work, sleep, social
   * media, the 12th-grade average, the three exams, financial stress.
   */
  function CleanedAt(k: nat): Feature
    requires k < 11
  {
    if k == 0 then Attendance else if k == 1 then SelfStudy else if k == 2 then Stress
    else if k == 3 then Work else if k == 4 then Sleep else if k == 5 then SocialMedia
    else if k == 6 then HighSchoolAverage else if k == 7 then Exam1 else if k == 8 then Exam2
    else if k == 9 then Exam3 else FinancialStress
  }

  /** Where a feature other than the study average sits among the eleven. */
  function CleanedPosition(f: Feature): (k: int)
    requires f != StudyAverage
    ensures 0 <= k < 11 && CleanedAt(k) == f
  {
    match f
    case Attendance => 0
    case SelfStudy => 1
    case Stress => 2
    case Work => 3
    case Sleep => 4
    case SocialMedia => 5
    case HighSchoolAverage => 6
    case Exam1 => 7
    case Exam2 => 8
    case Exam3 => 9
    case _ => 10
  }

  /** The eleven are every feature but the study average, each at one position. */
  lemma CleanedPositionOf(k: nat)
    requires k < 11
    ensures CleanedAt(k) != StudyAverage && CleanedPosition(CleanedAt(k)) == k
  {
  }

  /** `df.rename(columns=...)` with the survey table, applied unconditionally. */
  function RenameColumns(df: Frame): (r: Frame)
    ensures r.height == df.height && r.cols == df.cols && |r.names| == |df.names|
    ensures forall j :: 0 <= j < |df.names| ==> r.names[j] == Renamed(df.names[j])
  {
    Frame(df.height, seq(|df.names|, j requires 0 <= j < |df.names| => Renamed(df.names[j])), df.cols)
  }

  /** `pd.to_numeric(v, errors='coerce')` without the text clean-up: unparsable text becomes missing. */
  function ToNumeric(v: Value): (r: Value)
    ensures !r.Text?
    ensures !v.Text? ==> r == v
  {
    match v
    case Text(t) => (match ParseFloat(t) case None => Missing case Some(x) => Num(x))
    case _ => v
  }

  function ToNumericColumn(col: seq<Value>): (r: seq<Value>)
    ensures |r| == |col| && NumericColumn(r)
    ensures forall i :: 0 <= i < |col| ==> r[i] == ToNumeric(col[i])
  {
    seq(|col|, i requires 0 <= i < |col| => ToNumeric(col[i]))
  }

  /** Column `c` after the script's cleaning: the text clean-up for the eleven, plain parsing for the study average. */
  function SurveyColumn(df: Frame, c: Column): (col: seq<Value>)
    requires WellFormed(df) && c in df.names
    ensures |col| == df.height
  {
    if c == Feature(StudyAverage) then ToNumericColumn(Get(df, c))
    else if c.Feature? then Train.CleanColumn(Get(df, c))
    else Get(df, c)
  }

  /** The script's feature columns from position `k` of the eleven on, then the study average when present. */
  function ScriptFrom(k: nat, names: seq<Column>): (cs: seq<Column>)
    requires k <= 11
    ensures forall c :: c in cs <==>
      c.Feature? && (if c.f == StudyAverage then Feature(StudyAverage) in names else k <= CleanedPosition(c.f))
    decreases 11 - k
  {
    if k == 11 then (if Feature(StudyAverage) in names then [Feature(StudyAverage)] else [])
    else
      CleanedPositionOf(k);
      [Feature(CleanedAt(k))] + ScriptFrom(k + 1, names)
  }

  /** The feature columns the script works with: the eleven, and the study average when present. */
  function ScriptFeatures(names: seq<Column>): (cs: seq<Column>)
    ensures forall c :: c in cs <==> c.Feature? && (c.f != StudyAverage || Feature(StudyAverage) in names)
  {
    ScriptFrom(0, names)
  }

  /** Cleaning turns every feature column the script works with into numbers. */
  lemma SurveyColumnNumeric(df: Frame, c: Column)
    requires WellFormed(df) && c in df.names && c in ScriptFeatures(df.names)
    ensures NumericColumn(SurveyColumn(df, c))
  {
  }

  /** The cleaning loop after its first `k` passes over the eleven. */
  function SurveyCleanedAfter(df: Frame, k: nat): (r: Frame)
    requires WellFormed(df) && k <= 11
    ensures CleanedUpTo(df, r, k)
  {
    if k == 0 then df
    else
      var r := SurveyCleanedAfter(df, k - 1);
      CleanStep(df, r, k - 1);
      var c := Feature(CleanedAt(k - 1));
      if c in r.names then Set(r, c, Train.CleanColumn(Get(r, c))) else r
  }

  /**
   * The survey frame after the script's cleaning: each of the eleven
   * present is cleaned, then the study average is parsed when present;
   * every other column is left as it was.
   */
  function CleanedSurvey(df: Frame): (r: Frame)
    requires WellFormed(df)
    ensures WellFormed(r) && r.names == df.names && r.height == df.height
    ensures forall c :: c in df.names ==> Get(r, c) == SurveyColumn(df, c)
  {
    var r := SurveyCleanedAfter(df, 11);
    CleanAverage(df, r);
    var average := Feature(StudyAverage);
    if average in r.names then Set(r, average, ToNumericColumn(Get(r, average))) else r
  }

  /** The cleaning loop over the eleven feature columns, then the study average. */
  method CleanSurvey(df: Frame) returns (r: Frame)
    requires WellFormed(df)
    ensures r == CleanedSurvey(df)
  {
    r := df;
    for k := 0 to 11
      invariant r == SurveyCleanedAfter(df, k)
    {
      var c := Feature(CleanedAt(k));
      if c in r.names {
        r := Set(r, c, Train.CleanColumn(Get(r, c)));
      }
    }
    var average := Feature(StudyAverage);
    if average in r.names {
      r := Set(r, average, ToNumericColumn(Get(r, average)));
    }
  }

  /** The survey frame after the first `k` passes of the cleaning loop. */
  predicate CleanedUpTo(df: Frame, r: Frame, k: nat)
    requires WellFormed(df)
  {
    WellFormed(r) && r.names == df.names && r.height == df.height &&
    forall c :: c in df.names ==>
      Get(r, c) == if c.Feature? && c.f != StudyAverage && CleanedPosition(c.f) < k
                   then Train.CleanColumn(Get(df, c)) else Get(df, c)
  }

  /** One pass of the cleaning loop cleans the next of the eleven when it is present. */
  lemma CleanStep(df: Frame, r: Frame, k: nat)
    requires WellFormed(df) && k < 11 && CleanedUpTo(df, r, k)
    ensures var c := Feature(CleanedAt(k));
      CleanedUpTo(df, if c in r.names then Set(r, c, Train.CleanColumn(Get(r, c))) else r, k + 1)
  {
    CleanedPositionOf(k);
  }

  /** Parsing the study average after the loop completes the cleaning. */
  lemma CleanAverage(df: Frame, r: Frame)
    requires WellFormed(df) && CleanedUpTo(df, r, 11)
    ensures var a := Feature(StudyAverage);
      var out := if a in r.names then Set(r, a, ToNumericColumn(Get(r, a))) else r;
      WellFormed(out) && out.names == df.names && out.height == df.height &&
      forall c :: c in df.names ==> Get(out, c) == SurveyColumn(df, c)
  {
  }

  /** The columns kept for the output: the script's features, the intent score and the label. */
  function KeptColumns(names: seq<Column>): (cs: seq<Column>)
    ensures forall c :: c in cs <==> RowKey(c, Feature(StudyAverage) in names)
  {
    var cs := ScriptFeatures(names) + [Intent, Risk];
    assert forall c :: c in cs <==> c in ScriptFeatures(names) || c == Intent || c == Risk;
    cs
  }

  /** The survey frame after cleaning and labelling, column by column. */
  predicate Labelled(survey: Frame, f: Frame)
    requires WellFormed(survey)
  {
    WellFormed(f) && f.height == survey.height && Intent in survey.names && Risk in f.names &&
    NumericColumn(Get(survey, Intent)) &&
    (forall c :: c in f.names && c != Risk ==> c in survey.names && Get(f, c) == SurveyColumn(survey, c)) &&
    (forall i :: 0 <= i < survey.height ==> Get(f, Risk)[i] == LabelCell(Get(survey, Intent)[i]))
  }

  /** The first rows of the written dataset: the cleaned and labelled survey rows. */
  predicate SurveyRows(survey: Frame, f: Frame)
    requires WellFormed(survey) && WellFormed(f) && f.height >= survey.height && Intent in survey.names
  {
    (forall c :: c in f.names && c != Risk ==> c in survey.names && Get(f, c)[..survey.height] == SurveyColumn(survey, c)) &&
    (Risk in f.names ==> forall i :: 0 <= i < survey.height ==> Get(f, Risk)[i] == LabelCell(Get(survey, Intent)[i]))
  }

  /** The written dataset: the cleaned survey rows over the kept columns, then the synthetic rows. */
  predicate Dataset(survey: Frame, f: Frame)
    requires WellFormed(survey)
  {
    WellFormed(f) && f.height == survey.height + SyntheticCount && Intent in survey.names &&
    f.names == KeptColumns(survey.names) && SurveyRows(survey, f) &&
    forall i :: survey.height <= i < f.height ==> GeneratedRow(f, i)
  }

  /** Setting the label column on the cleaned survey frame gives the labelled frame. */
  lemma LabelledSet(survey: Frame, df: Frame, labels: seq<Value>)
    requires WellFormed(survey) && WellFormed(df) && df.names == survey.names && df.height == survey.height
    requires forall c :: c in df.names ==> Get(df, c) == SurveyColumn(survey, c)
    requires Intent in df.names && RiskColumn(Get(df, Intent)) == Ok(labels)
    ensures Labelled(survey, Set(df, Risk, labels))
  {
    var f := Set(df, Risk, labels);
    var intent := Get(survey, Intent);
    assert Get(df, Intent) == intent;
    forall i | 0 <= i < survey.height
      ensures Get(f, Risk)[i] == LabelCell(intent[i])
    {
    }
  }

  /** An empty at-risk mask means no intent score reached 4. */
  lemma NoRiskRows(survey: Frame, f: Frame)
    requires WellFormed(survey) && Labelled(survey, f) && Matching(Get(f, Risk), Num(1.0)) == []
    ensures forall i :: 0 <= i < survey.height ==> CreateRiskLabel(Get(survey, Intent)[i]) == Ok(0)
  {
    MatchingSpec(Get(f, Risk), Num(1.0));
    forall i | 0 <= i < survey.height
      ensures CreateRiskLabel(Get(survey, Intent)[i]) == Ok(0)
    {
      assert Get(f, Risk)[i] != Num(1.0);
      assert !Get(survey, Intent)[i].Text?;
    }
  }

  /** A row of the concatenation below the first frame's rows is a synthetic row when the second frame's is. */
  lemma GeneratedRowShift(a: Frame, b: Frame, i: nat)
    requires WellFormed(a) && WellFormed(b) && i < b.height && GeneratedRow(b, i)
    ensures GeneratedRow(Concat(a, b), a.height + i)
  {
    forall c
      ensures ColumnOrMissing(Concat(a, b), c)[a.height + i] == ColumnOrMissing(b, c)[i]
    {
      ConcatAt(a, b, i, c);
    }
  }

  /** A kept column other than the label is the cleaned survey column. */
  lemma KeptSurveyColumn(survey: Frame, labelled: Frame, keep: seq<Column>, clean: Frame, c: Column)
    requires WellFormed(survey) && Labelled(survey, labelled)
    requires Select(labelled, keep) == Ok(clean) && c in keep && c != Risk
    ensures c in survey.names && Get(clean, c) == SurveyColumn(survey, c)
  {
    SelectGet(labelled, keep, c);
  }

  /** The survey rows survive the concatenation unchanged. */
  lemma ConcatSurveyRows(survey: Frame, labelled: Frame, keep: seq<Column>, clean: Frame, synthetic: Frame)
    requires WellFormed(survey) && Labelled(survey, labelled) && WellFormed(synthetic)
    requires Select(labelled, keep) == Ok(clean) && Risk in keep
    requires forall c :: c in synthetic.names ==> c in keep
    ensures SurveyRows(survey, Concat(clean, synthetic))
  {
    NoNewNames(keep, synthetic.names);
    assert keep + [] == keep;
    forall c | c in keep && c != Risk
      ensures c in survey.names && Get(Concat(clean, synthetic), c)[..survey.height] == SurveyColumn(survey, c)
    {
      ConcatSpec(clean, synthetic, c);
      KeptSurveyColumn(survey, labelled, keep, clean, c);
    }
    ConcatSpec(clean, synthetic, Risk);
    SelectGet(labelled, keep, Risk);
    assert Get(Concat(clean, synthetic), Risk)[..survey.height] == Get(labelled, Risk);
  }

  /** The rows below the first frame's are the second frame's synthetic rows. */
  lemma ShiftedRows(a: Frame, b: Frame)
    requires WellFormed(a) && WellFormed(b)
    requires forall i :: 0 <= i < b.height ==> GeneratedRow(b, i)
    ensures forall i :: a.height <= i < a.height + b.height ==> GeneratedRow(Concat(a, b), i)
  {
    forall i | a.height <= i < a.height + b.height
      ensures GeneratedRow(Concat(a, b), i)
    {
      var k: nat := i - a.height;
      GeneratedRowShift(a, b, k);
      assert a.height + k == i;
    }
  }

  /** The synthetic rows bring no column the kept survey columns lack. */
  lemma SyntheticNamesKept(names: seq<Column>)
    ensures forall c :: c in RowOrder(Feature(StudyAverage) in KeptColumns(names)) ==> c in KeptColumns(names)
  {
    assert Feature(StudyAverage) in KeptColumns(names) <==> Feature(StudyAverage) in names;
  }

  /** The cleaned rows followed by the synthetic rows make the written dataset. */
  lemma ConcatIsDataset(survey: Frame, labelled: Frame, clean: Frame, synthetic: Frame)
    requires WellFormed(survey) && Labelled(survey, labelled) && WellFormed(synthetic)
    requires Select(labelled, KeptColumns(survey.names)) == Ok(clean)
    requires synthetic.height == SyntheticCount
    requires forall c :: c in synthetic.names ==> c in KeptColumns(survey.names)
    requires forall i :: 0 <= i < SyntheticCount ==> GeneratedRow(synthetic, i)
    ensures Dataset(survey, Concat(clean, synthetic))
  {
    var keep := KeptColumns(survey.names);
    NoNewNames(keep, synthetic.names);
    assert keep + [] == keep;
    ConcatSurveyRows(survey, labelled, keep, clean, synthetic);
    ShiftedRows(clean, synthetic);
  }

  /**
   * The cleaned survey frame with the label column set, `df['rizika'] =
   * df['ketinu_mesti_studijas'].apply(...)`: a KeyError without the intent
   * column, a TypeError when an intent cell is text.
   */
  function LabelledOf(survey: Frame): (r: Result<Frame>)
    requires WellFormed(survey)
    ensures r.Ok? <==> Intent in survey.names && NumericColumn(Get(survey, Intent))
    ensures Intent !in survey.names ==> r == Err(KeyNotFound(Intent))
    ensures Intent in survey.names && !NumericColumn(Get(survey, Intent)) ==> r == Err(TypeMismatch(Intent))
    ensures r.Ok? ==> (Labelled(survey, r.value) &&
      r.value.names == if Risk in survey.names then survey.names else survey.names + [Risk])
  {
    var df := CleanedSurvey(survey);
    if Intent !in df.names then Err(KeyNotFound(Intent))
    else
      assert Get(df, Intent) == Get(survey, Intent);
      match RiskColumn(Get(df, Intent))
      case Err(e) => Err(e)
      case Ok(labels) =>
        LabelledSet(survey, df, labels);
        Ok(Set(df, Risk, labels))
  }

  /** The at-risk rows over the kept columns, `df[df['rizika'] == 1][keep]`: the generator's bases. */
  function RealRiskOf(survey: Frame, labelled: Frame): Result<Frame>
    requires WellFormed(survey) && Labelled(survey, labelled)
  {
    MatchingSpec(Get(labelled, Risk), Num(1.0));
    var mask := Matching(Get(labelled, Risk), Num(1.0));
    Select(Rows(labelled, mask), KeptColumns(survey.names))
  }

  /**
   * `main` from the renamed survey frame on: clean, label, keep the
   * at-risk rows; stop with nothing written (Ok(None)) when there are
   * none; otherwise generate the synthetic rows and give the kept survey
   * columns followed by them, the frame written out.
   */
  function GenerationFrom(survey: Frame, rng: Rng): Result<Option<Frame>>
    requires WellFormed(survey)
  {
    match LabelledOf(survey)
    case Err(e) => Err(e)
    case Ok(labelled) =>
      match RealRiskOf(survey, labelled)
      case Err(e) => Err(e)
      case Ok(realRisk) => Generated(survey, labelled, realRisk, rng)
  }

  /**
   * The part of `main` after the selection: nothing written from no
   * bases, otherwise the generator's first error or the kept survey
   * columns followed by the synthetic rows.
   */
  function Generated(survey: Frame, labelled: Frame, realRisk: Frame, rng: Rng): (r: Result<Option<Frame>>)
    requires WellFormed(survey) && Labelled(survey, labelled) && WellFormed(realRisk)
    requires Select(labelled, KeptColumns(survey.names)).Ok?
    ensures r == Ok(None) <==> realRisk.height == 0
  {
    if realRisk.height == 0 then Ok(None)
    else
      match Loop(Builder(realRisk, rng), SyntheticCount)
      case Err(e) => Err(e)
      case Ok(rows) =>
        var clean := Select(labelled, KeptColumns(survey.names)).value;
        Ok(Some(Concat(clean, FrameOfRows(rows, RowOrder(Feature(StudyAverage) in realRisk.names)))))
  }

  /** Every feature column the script selects unconditionally, the eleven, is a survey column. */
  predicate ElevenPresent(names: seq<Column>)
  {
    forall f :: f != StudyAverage ==> Feature(f) in names
  }

  /** The kept columns are all among the labelled frame's exactly when the eleven are survey columns. */
  lemma KeptPresent(names: seq<Column>, labelledNames: seq<Column>)
    requires Intent in names
    requires labelledNames == if Risk in names then names else names + [Risk]
    ensures (forall c :: c in KeptColumns(names) ==> c in labelledNames) <==> ElevenPresent(names)
    ensures forall c :: c in KeptColumns(names) && c !in labelledNames ==> c.Feature? && c !in names
  {
    if !ElevenPresent(names) {
      var f :| f != StudyAverage && Feature(f) !in names;
      assert Feature(f) in KeptColumns(names);
    }
  }

  /** No row is at risk exactly when no intent score reaches 4. */
  lemma AtRiskNone(survey: Frame, labelled: Frame)
    requires WellFormed(survey) && Labelled(survey, labelled)
    ensures Matching(Get(labelled, Risk), Num(1.0)) == [] <==>
      forall i :: 0 <= i < survey.height ==> CreateRiskLabel(Get(survey, Intent)[i]) == Ok(0)
  {
    var mask := Matching(Get(labelled, Risk), Num(1.0));
    if mask == [] {
      NoRiskRows(survey, labelled);
    } else {
      MatchingSpec(Get(labelled, Risk), Num(1.0));
      var i := mask[0];
      assert i in mask;
      assert LabelCell(Get(survey, Intent)[i]) == Num(1.0);
    }
  }

  /** The at-risk selection fails exactly when one of the eleven is absent, and names an absent one. */
  lemma RealRiskSelect(survey: Frame, labelled: Frame)
    requires WellFormed(survey) && Labelled(survey, labelled)
    requires labelled.names == if Risk in survey.names then survey.names else survey.names + [Risk]
    ensures RealRiskOf(survey, labelled).Ok? <==> ElevenPresent(survey.names)
    ensures RealRiskOf(survey, labelled).Err? ==>
      var e := RealRiskOf(survey, labelled).error;
      e.KeyNotFound? && e.key.Feature? && e.key !in survey.names
    ensures RealRiskOf(survey, labelled).Ok? ==>
      Select(labelled, KeptColumns(survey.names)).Ok? &&
      (RealRiskOf(survey, labelled).value.height == 0 <==>
        forall i :: 0 <= i < survey.height ==> CreateRiskLabel(Get(survey, Intent)[i]) == Ok(0))
  {
    KeptPresent(survey.names, labelled.names);
    AtRiskNone(survey, labelled);
  }

  /** A frame with no intent column, or with text in it, fails before anything is selected. */
  lemma GenerationLabelErrors(survey: Frame, rng: Rng)
    requires WellFormed(survey)
    ensures Intent !in survey.names ==> GenerationFrom(survey, rng) == Err(KeyNotFound(Intent))
    ensures Intent in survey.names && !NumericColumn(Get(survey, Intent)) ==>
      GenerationFrom(survey, rng) == Err(TypeMismatch(Intent))
  {
  }

  /** With a numeric intent column, one of the eleven absent fails with a KeyError naming an absent feature column. */
  lemma GenerationKeyError(survey: Frame, rng: Rng)
    requires WellFormed(survey) && Intent in survey.names && NumericColumn(Get(survey, Intent))
    requires !ElevenPresent(survey.names)
    ensures GenerationFrom(survey, rng).Err?
    ensures var e := GenerationFrom(survey, rng).error;
      e.KeyNotFound? && e.key.Feature? && e.key !in survey.names
  {
    var labelled := LabelledOf(survey).value;
    RealRiskSelect(survey, labelled);
    assert GenerationFrom(survey, rng) == Err(RealRiskOf(survey, labelled).error);
  }

  /**
   * With a numeric intent column and the eleven present, the script stops
   * with nothing written exactly when no intent score reaches 4.
   */
  lemma GenerationNone(survey: Frame, rng: Rng)
    requires WellFormed(survey) && Intent in survey.names && NumericColumn(Get(survey, Intent))
    requires ElevenPresent(survey.names)
    ensures GenerationFrom(survey, rng) == Ok(None) <==>
      forall i :: 0 <= i < survey.height ==> CreateRiskLabel(Get(survey, Intent)[i]) == Ok(0)
  {
    var labelled := LabelledOf(survey).value;
    RealRiskSelect(survey, labelled);
    var realRisk := RealRiskOf(survey, labelled).value;
    assert GenerationFrom(survey, rng) == Generated(survey, labelled, realRisk, rng);
  }

  /**
   * The script stops with nothing written exactly when the intent column
   * is present and numeric, the eleven are present and no intent score
   * reaches 4.
   */
  lemma GenerationStops(survey: Frame, rng: Rng)
    requires WellFormed(survey)
    ensures GenerationFrom(survey, rng) == Ok(None) <==>
      Intent in survey.names && NumericColumn(Get(survey, Intent)) && ElevenPresent(survey.names) &&
      forall i :: 0 <= i < survey.height ==> CreateRiskLabel(Get(survey, Intent)[i]) == Ok(0)
  {
    if Intent in survey.names && NumericColumn(Get(survey, Intent)) {
      if ElevenPresent(survey.names) {
        GenerationNone(survey, rng);
      } else {
        GenerationKeyError(survey, rng);
      }
    }
  }

  /**
   * Once the bases exist and are not empty, the generator's first error is
   * the script's error; without one the written frame is the dataset: the
   * cleaned survey rows over the kept columns, then eighty synthetic rows.
   */
  lemma GenerationWrites(survey: Frame, rng: Rng)
    requires WellFormed(survey) && LabelledOf(survey).Ok?
    requires RealRiskOf(survey, LabelledOf(survey).value).Ok?
    requires RealRiskOf(survey, LabelledOf(survey).value).value.height > 0
    ensures var loop := Loop(Builder(RealRiskOf(survey, LabelledOf(survey).value).value, rng), SyntheticCount);
      loop.Err? ==> GenerationFrom(survey, rng) == Err(loop.error)
    ensures var loop := Loop(Builder(RealRiskOf(survey, LabelledOf(survey).value).value, rng), SyntheticCount);
      loop.Ok? ==> (GenerationFrom(survey, rng).Ok? && GenerationFrom(survey, rng).value.Some? &&
        Dataset(survey, GenerationFrom(survey, rng).value.value))
  {
    var labelled := LabelledOf(survey).value;
    var realRisk := RealRiskOf(survey, labelled).value;
    RealRiskSelect(survey, labelled);
    var loop := Loop(Builder(realRisk, rng), SyntheticCount);
    if loop.Ok? {
      GeneratedSample(realRisk, SyntheticCount, rng);
      assert Feature(StudyAverage) in realRisk.names <==> Feature(StudyAverage) in KeptColumns(survey.names);
      SyntheticNamesKept(survey.names);
      var synthetic := FrameOfRows(loop.value, RowOrder(Feature(StudyAverage) in realRisk.names));
      ConcatIsDataset(survey, labelled, Select(labelled, KeptColumns(survey.names)).value, synthetic);
    }
  }

  /**
   * `main` on the survey frame, after `read_csv`: rename, then the steps
   * of GenerationFrom in order.
   */
  method GenerateDataset(raw: Frame, rng: Rng) returns (r: Result<Option<Frame>>)
    requires WellFormed(raw)
    ensures r == GenerationFrom(RenameColumns(raw), rng)
  {
    var survey := RenameColumns(raw);
    var df := CleanSurvey(survey);
    if Intent !in df.names {
      return Err(KeyNotFound(Intent));
    }
    var labels := RiskColumn(Get(df, Intent));
    if labels.Err? {
      return Err(labels.error);
    }
    var labelled := Set(df, Risk, labels.value);
    var keep := KeptColumns(df.names);
    var mask := Matching(Get(labelled, Risk), Num(1.0));
    var realRisk := Select(Rows(labelled, mask), keep);
    if realRisk.Err? {
      return Err(realRisk.error);
    }
    if realRisk.value.height == 0 {
      return Ok(None);
    }
    var synthetic := GenerateRealisticFromReal(realRisk.value, SyntheticCount, rng);
    if synthetic.Err? {
      return Err(synthetic.error);
    }
    var clean := Select(labelled, keep);
    r := Ok(Some(Concat(clean.value, synthetic.value)));
  }
}
