/*
 * The first generator script: synthetic at-risk and not-at-risk students
 * drawn from a few archetypes (each field from the archetype's range,
 * then two correlations applied), and the main part that loads the
 * existing data set, generates 100 at-risk students and merges them in
 * over the columns both share, re-deriving the `rizika` label.
 */
module Synthetic {
  import opened Schema
  import opened Table
  import opened Utils
  import opened Random
  import Train

  /** The dictionary built for each generated student. */
  datatype Student = Student(
    attendance: int, selfStudy: int, stress: int, work: int, sleep: int, social: int,
    average: real, highSchool: real, exam1: int, exam2: int, exam3: int,
    financial: int, intent: int, risk: int)

  /** The archetypes of an at-risk student. */
  datatype RiskKind = Classic | Burnout | FinancialTrouble | RiskEdgeCase

  /** The archetypes of a student who is not at risk. */
  datatype SafeKind = Excellent | Good | Average | SafeEdgeCase

  const RiskKinds: seq<RiskKind> := [Classic, Burnout, FinancialTrouble, RiskEdgeCase]
  const SafeKinds: seq<SafeKind> := [Excellent, Good, Average, SafeEdgeCase]
  const RiskIntents: seq<int> := [4, 5]
  const SafeIntents: seq<int> := [1, 2, 3]

  /** Call sites of the draws within one row. */
  const KindSite: nat := 0
  const AttendanceSite: nat := 1
  const SelfStudySite: nat := 2
  const StressSite: nat := 3
  const WorkSite: nat := 4
  const SleepSite: nat := 5
  const SocialSite: nat := 6
  const AverageSite: nat := 7
  const FinancialSite: nat := 8
  const CorrelationSite: nat := 9
  const HighSchoolSite: nat := 10
  const ExamSite: nat := 11  // and the next two
  const IntentSite: nat := 14

  /** The number of at-risk students the main part generates. */
  const RiskCount: nat := 100

  function RiskKindOf(rng: Rng, row: nat): RiskKind
  {
    Choice(rng, row, KindSite, RiskKinds)
  }

  function SafeKindOf(rng: Rng, row: nat): SafeKind
  {
    Choice(rng, row, KindSite, SafeKinds)
  }

  // ---------------------------------------------------------------------
  // What a generated row holds
  // ---------------------------------------------------------------------

  /**
   * The ranges of an at-risk student of each archetype once the two
   * correlations have run: heavy work only ever lowers self-study (never
   * below 0), and short sleep only ever raises stress (never above 5).
   */
  predicate RiskProfile(k: RiskKind, s: Student)
  {
    match k
    case Classic =>
      20 <= s.attendance < 60 && 0 <= s.selfStudy < 5 && 4 <= s.stress <= 5 && 30 <= s.work < 50 &&
      4 <= s.sleep < 6 && 5 <= s.social < 12 && 5.0 <= s.average <= 7.0 && 4 <= s.financial < 6
    case Burnout =>
      40 <= s.attendance < 75 && 0 <= s.selfStudy < 15 && (s.work <= 35 ==> 5 <= s.selfStudy) &&
      s.stress == 5 && 20 <= s.work < 40 && 3 <= s.sleep < 6 && 1 <= s.social < 4 &&
      6.5 <= s.average <= 8.0 && 2 <= s.financial < 5
    case FinancialTrouble =>
      50 <= s.attendance < 80 && 0 <= s.selfStudy < 10 && (s.work <= 35 ==> 3 <= s.selfStudy) &&
      4 <= s.stress <= 5 && (s.sleep < 6 ==> s.stress == 5) && 35 <= s.work < 60 && 4 <= s.sleep < 7 &&
      1 <= s.social < 5 && 6.0 <= s.average <= 8.0 && s.financial == 5
    case RiskEdgeCase =>
      10 <= s.attendance < 90 && 0 <= s.selfStudy < 20 && 2 <= s.stress <= 5 && (s.sleep < 6 ==> 3 <= s.stress) &&
      0 <= s.work < 50 && 4 <= s.sleep < 9 && 1 <= s.social < 12 && 5.0 <= s.average <= 8.5 &&
      1 <= s.financial < 6
  }

  /** What every generated at-risk row holds, whatever its archetype. */
  predicate RiskRow(s: Student)
  {
    10 <= s.attendance < 90 && 0 <= s.selfStudy < 20 && 2 <= s.stress <= 5 && 0 <= s.work < 60 &&
    3 <= s.sleep < 9 && 1 <= s.social < 12 && 5.0 <= s.average <= 8.5 && 6.0 <= s.highSchool <= 8.5 &&
    20 <= s.exam1 < 70 && 20 <= s.exam2 < 70 && 20 <= s.exam3 < 70 && 1 <= s.financial <= 5 &&
    (s.intent == 4 || s.intent == 5) && s.risk == 1
  }

  /** The half-open range the three exam scores of each archetype are drawn from. */
  function ExamRange(k: SafeKind): (int, int)
  {
    match k
    case Excellent => (70, 100)
    case Good => (60, 85)
    case Average => (50, 75)
    case SafeEdgeCase => (55, 90)
  }

  predicate InExamRange(k: SafeKind, score: int)
  {
    ExamRange(k).0 <= score < ExamRange(k).1
  }

  /**
   * The ranges of a student who is not at risk, per archetype, once the two
   * correlations have run: much self-study only ever raises the average
   * (never above 10.0), and long sleep only ever lowers stress (never
   * below 1).
   */
  predicate SafeProfile(k: SafeKind, s: Student)
  {
    InExamRange(k, s.exam1) && InExamRange(k, s.exam2) && InExamRange(k, s.exam3) &&
    match k
    case Excellent =>
      90 <= s.attendance < 101 && 15 <= s.selfStudy < 35 && 1 <= s.stress <= 2 && (s.sleep >= 8 ==> s.stress == 1) &&
      0 <= s.work < 15 && 7 <= s.sleep < 10 && 1 <= s.social < 5 && 8.5 <= s.average <= 10.0 && 1 <= s.financial < 3
    case Good =>
      80 <= s.attendance < 95 && 10 <= s.selfStudy < 25 && 1 <= s.stress <= 3 && (s.sleep >= 8 ==> s.stress <= 2) &&
      10 <= s.work < 25 && 6 <= s.sleep < 9 && 2 <= s.social < 6 && 7.5 <= s.average <= 10.0 &&
      (s.selfStudy <= 20 ==> s.average <= 9.0) && 1 <= s.financial < 4
    case Average =>
      70 <= s.attendance < 90 && 5 <= s.selfStudy < 15 && 2 <= s.stress <= 3 && 15 <= s.work < 30 &&
      6 <= s.sleep < 8 && 3 <= s.social < 8 && 7.0 <= s.average <= 8.5 && 2 <= s.financial < 4
    case SafeEdgeCase =>
      50 <= s.attendance < 100 && 5 <= s.selfStudy < 30 && 1 <= s.stress <= 4 && (s.sleep >= 8 ==> s.stress <= 3) &&
      0 <= s.work < 40 && 5 <= s.sleep < 10 && 1 <= s.social < 10 && 7.0 <= s.average <= 10.0 &&
      (s.selfStudy <= 20 ==> s.average <= 9.5) && 1 <= s.financial < 5
  }

  /** What every generated row of a student who is not at risk holds. */
  predicate SafeRow(s: Student)
  {
    50 <= s.attendance < 101 && 5 <= s.selfStudy < 35 && 1 <= s.stress <= 4 && 0 <= s.work < 40 &&
    5 <= s.sleep < 10 && 1 <= s.social < 10 && 7.0 <= s.average <= 10.0 && 7.0 <= s.highSchool <= 9.5 &&
    50 <= s.exam1 < 100 && 50 <= s.exam2 < 100 && 50 <= s.exam3 < 100 && 1 <= s.financial < 5 &&
    (s.intent == 1 || s.intent == 2 || s.intent == 3) && s.risk == 0
  }

  // ---------------------------------------------------------------------
  // One row
  // ---------------------------------------------------------------------

  /** The body of the loop of `generate_risk_students`: one at-risk student. */
  method NewRiskStudent(rng: Rng, row: nat) returns (s: Student)
    ensures RiskProfile(RiskKindOf(rng, row), s)
    ensures RiskRow(s)
  {
    var kind := RiskKindOf(rng, row);
    var attendance, selfStudy, stress, work, sleep, social, average, financial;
    if kind == Classic {
      attendance := RandInt(rng, row, AttendanceSite, 20, 60);
      selfStudy := RandInt(rng, row, SelfStudySite, 0, 5);
      stress := RandInt(rng, row, StressSite, 3, 6);
      work := RandInt(rng, row, WorkSite, 30, 50);
      sleep := RandInt(rng, row, SleepSite, 4, 6);
      social := RandInt(rng, row, SocialSite, 5, 12);
      average := Round1Uniform(rng, row, AverageSite, 5.0, 7.0);
      financial := RandInt(rng, row, FinancialSite, 4, 6);
    } else if kind == Burnout {
      attendance := RandInt(rng, row, AttendanceSite, 40, 75);
      selfStudy := RandInt(rng, row, SelfStudySite, 5, 15);
      stress := 5;
      work := RandInt(rng, row, WorkSite, 20, 40);
      sleep := RandInt(rng, row, SleepSite, 3, 6);
      social := RandInt(rng, row, SocialSite, 1, 4);
      average := Round1Uniform(rng, row, AverageSite, 6.5, 8.0);
      financial := RandInt(rng, row, FinancialSite, 2, 5);
    } else if kind == FinancialTrouble {
      attendance := RandInt(rng, row, AttendanceSite, 50, 80);
      selfStudy := RandInt(rng, row, SelfStudySite, 3, 10);
      stress := RandInt(rng, row, StressSite, 4, 6);
      work := RandInt(rng, row, WorkSite, 35, 60);
      sleep := RandInt(rng, row, SleepSite, 4, 7);
      social := RandInt(rng, row, SocialSite, 1, 5);
      average := Round1Uniform(rng, row, AverageSite, 6.0, 8.0);
      financial := 5;
    } else {
      attendance := RandInt(rng, row, AttendanceSite, 10, 90);
      selfStudy := RandInt(rng, row, SelfStudySite, 0, 20);
      stress := RandInt(rng, row, StressSite, 2, 6);
      work := RandInt(rng, row, WorkSite, 0, 50);
      sleep := RandInt(rng, row, SleepSite, 4, 9);
      social := RandInt(rng, row, SocialSite, 1, 12);
      average := Round1Uniform(rng, row, AverageSite, 5.0, 8.5);
      financial := RandInt(rng, row, FinancialSite, 1, 6);
    }
    // much work leaves less time for self-study
    if work > 35 {
      var cut := RandInt(rng, row, CorrelationSite, 2, 5);
      selfStudy := if selfStudy - cut < 0 then 0 else selfStudy - cut;
    }
    // little sleep raises stress
    if sleep < 6 {
      stress := if stress + 1 > 5 then 5 else stress + 1;
    }
    s := Student(attendance, selfStudy, stress, work, sleep, social, average,
                 Round1Uniform(rng, row, HighSchoolSite, 6.0, 8.5),
                 RandInt(rng, row, ExamSite, 20, 70), RandInt(rng, row, ExamSite + 1, 20, 70),
                 RandInt(rng, row, ExamSite + 2, 20, 70),
                 financial, Choice(rng, row, IntentSite, RiskIntents), 1);
  }

  /** The body of the loop of `generate_no_risk_students`: one student who is not at risk. */
  method NewSafeStudent(rng: Rng, row: nat) returns (s: Student)
    ensures SafeProfile(SafeKindOf(rng, row), s)
    ensures SafeRow(s)
  {
    var kind := SafeKindOf(rng, row);
    var attendance, selfStudy, stress, work, sleep, social, average, financial;
    if kind == Excellent {
      attendance := RandInt(rng, row, AttendanceSite, 90, 101);
      selfStudy := RandInt(rng, row, SelfStudySite, 15, 35);
      stress := RandInt(rng, row, StressSite, 1, 3);
      work := RandInt(rng, row, WorkSite, 0, 15);
      sleep := RandInt(rng, row, SleepSite, 7, 10);
      social := RandInt(rng, row, SocialSite, 1, 5);
      average := Round1Uniform(rng, row, AverageSite, 8.5, 10.0);
      financial := RandInt(rng, row, FinancialSite, 1, 3);
    } else if kind == Good {
      attendance := RandInt(rng, row, AttendanceSite, 80, 95);
      selfStudy := RandInt(rng, row, SelfStudySite, 10, 25);
      stress := RandInt(rng, row, StressSite, 2, 4);
      work := RandInt(rng, row, WorkSite, 10, 25);
      sleep := RandInt(rng, row, SleepSite, 6, 9);
      social := RandInt(rng, row, SocialSite, 2, 6);
      average := Round1Uniform(rng, row, AverageSite, 7.5, 9.0);
      financial := RandInt(rng, row, FinancialSite, 1, 4);
    } else if kind == Average {
      attendance := RandInt(rng, row, AttendanceSite, 70, 90);
      selfStudy := RandInt(rng, row, SelfStudySite, 5, 15);
      stress := RandInt(rng, row, StressSite, 2, 4);
      work := RandInt(rng, row, WorkSite, 15, 30);
      sleep := RandInt(rng, row, SleepSite, 6, 8);
      social := RandInt(rng, row, SocialSite, 3, 8);
      average := Round1Uniform(rng, row, AverageSite, 7.0, 8.5);
      financial := RandInt(rng, row, FinancialSite, 2, 4);
    } else {
      attendance := RandInt(rng, row, AttendanceSite, 50, 100);
      selfStudy := RandInt(rng, row, SelfStudySite, 5, 30);
      stress := RandInt(rng, row, StressSite, 1, 5);
      work := RandInt(rng, row, WorkSite, 0, 40);
      sleep := RandInt(rng, row, SleepSite, 5, 10);
      social := RandInt(rng, row, SocialSite, 1, 10);
      average := Round1Uniform(rng, row, AverageSite, 7.0, 9.5);
      financial := RandInt(rng, row, FinancialSite, 1, 5);
    }
    var exams := ExamRange(kind);
    // much self-study raises the average
    if selfStudy > 20 {
      var bonus := Round1Uniform(rng, row, CorrelationSite, 0.2, 0.8);
      average := if average + bonus > 10.0 then 10.0 else average + bonus;
    }
    // long sleep lowers stress
    if sleep >= 8 {
      stress := if stress - 1 < 1 then 1 else stress - 1;
    }
    s := Student(attendance, selfStudy, stress, work, sleep, social, average,
                 Round1Uniform(rng, row, HighSchoolSite, 7.0, 9.5),
                 RandInt(rng, row, ExamSite, exams.0, exams.1), RandInt(rng, row, ExamSite + 1, exams.0, exams.1),
                 RandInt(rng, row, ExamSite + 2, exams.0, exams.1),
                 financial, Choice(rng, row, IntentSite, SafeIntents), 0);
  }

  // ---------------------------------------------------------------------
  // The generated frame
  // ---------------------------------------------------------------------

  /** The columns of a generated row, in the order of the dictionary: the twelve features, the intent, the label. */
  function ColumnAt(k: nat): Column
    requires k < 14
  {
    if k == 0 then Feature(Attendance) else if k == 1 then Feature(SelfStudy)
    else if k == 2 then Feature(Stress) else if k == 3 then Feature(Work)
    else if k == 4 then Feature(Sleep) else if k == 5 then Feature(SocialMedia)
    else if k == 6 then Feature(StudyAverage) else if k == 7 then Feature(HighSchoolAverage)
    else if k == 8 then Feature(Exam1) else if k == 9 then Feature(Exam2)
    else if k == 10 then Feature(Exam3) else if k == 11 then Feature(FinancialStress)
    else if k == 12 then Intent else Risk
  }

  /** Where a column stands in a generated row. */
  function ColumnPosition(c: Column): (k: nat)
    requires !c.Other?
    ensures k < 14 && ColumnAt(k) == c
  {
    match c
    case Feature(f) =>
      (match f
       case Attendance => 0
       case SelfStudy => 1
       case Stress => 2
       case Work => 3
       case Sleep => 4
       case SocialMedia => 5
       case StudyAverage => 6
       case HighSchoolAverage => 7
       case Exam1 => 8
       case Exam2 => 9
       case Exam3 => 10
       case FinancialStress => 11)
    case Intent => 12
    case Risk => 13
  }

  lemma PositionOfColumn(k: nat)
    requires k < 14
    ensures !ColumnAt(k).Other? && ColumnPosition(ColumnAt(k)) == k
  {
  }

  function ColumnsFrom(k: nat): (cs: seq<Column>)
    requires k <= 14
    ensures forall c :: c in cs <==> !c.Other? && k <= ColumnPosition(c)
    decreases 14 - k
  {
    if k == 14 then []
    else
      PositionOfColumn(k);
      [ColumnAt(k)] + ColumnsFrom(k + 1)
  }

  /** The columns of the generated frame. */
  function StudentColumns(): (cs: seq<Column>)
    ensures forall c :: c in cs <==> !c.Other?
  {
    ColumnsFrom(0)
  }

  /** The cell a student's dictionary holds for a column. */
  function Cell(s: Student, c: Column): Value
  {
    match c
    case Feature(f) =>
      (match f
       case Attendance => Num(s.attendance as real)
       case SelfStudy => Num(s.selfStudy as real)
       case Stress => Num(s.stress as real)
       case Work => Num(s.work as real)
       case Sleep => Num(s.sleep as real)
       case SocialMedia => Num(s.social as real)
       case StudyAverage => Num(s.average)
       case HighSchoolAverage => Num(s.highSchool)
       case Exam1 => Num(s.exam1 as real)
       case Exam2 => Num(s.exam2 as real)
       case Exam3 => Num(s.exam3 as real)
       case FinancialStress => Num(s.financial as real))
    case Intent => Num(s.intent as real)
    case Risk => Num(s.risk as real)
    case Other(_) => Missing
  }

  /** The dictionary of one student. */
  function StudentRow(s: Student): map<Column, Value>
  {
    map c | c in StudentColumns() :: Cell(s, c)
  }

  /** The dictionary has every internal column, each with the student's value. */
  lemma StudentRowAt(s: Student, c: Column)
    requires !c.Other?
    ensures c in StudentRow(s) && StudentRow(s)[c] == Cell(s, c)
  {
  }

  /** The list `data` of dictionaries, one per student in order. */
  function StudentRows(students: seq<Student>): (rows: seq<map<Column, Value>>)
    ensures |rows| == |students|
  {
    seq(|students|, i requires 0 <= i < |students| => StudentRow(students[i]))
  }

  /** Appending a student appends its dictionary. */
  lemma StudentRowsSnoc(students: seq<Student>, s: Student)
    ensures StudentRows(students + [s]) == StudentRows(students) + [StudentRow(s)]
  {
    var a, b := StudentRows(students + [s]), StudentRows(students) + [StudentRow(s)];
    forall i | 0 <= i < |a|
      ensures a[i] == b[i]
    {
      if i < |students| {
        assert (students + [s])[i] == students[i];
      }
    }
  }

  /** `pd.DataFrame(data)`. */
  function StudentsFrame(students: seq<Student>): Frame
  {
    FrameOfRows(StudentRows(students), StudentColumns())
  }

  /** Every cell of the generated frame is the student's value for that column. */
  lemma StudentCell(students: seq<Student>, i: nat, c: Column)
    requires i < |students| && !c.Other?
    ensures WellFormed(StudentsFrame(students)) && StudentsFrame(students).height == |students|
    ensures c in StudentsFrame(students).names && Get(StudentsFrame(students), c)[i] == Cell(students[i], c)
  {
    StudentRowAt(students[i], c);
    FrameOfRowsAt(StudentRows(students), StudentColumns(), i, c);
  }

  /** The cells of an at-risk row that the label and the feature checks rely on. */
  predicate RiskCells(f: Frame, i: nat)
    requires WellFormed(f) && i < f.height
  {
    var stress, selfStudy := ColumnOrMissing(f, Feature(Stress))[i], ColumnOrMissing(f, Feature(SelfStudy))[i];
    ColumnOrMissing(f, Risk)[i] == Num(1.0) &&
    (ColumnOrMissing(f, Intent)[i] == Num(4.0) || ColumnOrMissing(f, Intent)[i] == Num(5.0)) &&
    stress.Num? && 2.0 <= stress.x <= 5.0 && selfStudy.Num? && 0.0 <= selfStudy.x
  }

  /** The same for a row of a student who is not at risk. */
  predicate SafeCells(f: Frame, i: nat)
    requires WellFormed(f) && i < f.height
  {
    var stress, average := ColumnOrMissing(f, Feature(Stress))[i], ColumnOrMissing(f, Feature(StudyAverage))[i];
    var intent := ColumnOrMissing(f, Intent)[i];
    ColumnOrMissing(f, Risk)[i] == Num(0.0) &&
    (intent == Num(1.0) || intent == Num(2.0) || intent == Num(3.0)) &&
    stress.Num? && 1.0 <= stress.x <= 4.0 && average.Num? && average.x <= 10.0
  }

  /** Every row of the frame holds the cells its student promises. */
  lemma RiskFrameCells(students: seq<Student>)
    requires forall i :: 0 <= i < |students| ==> RiskRow(students[i])
    ensures WellFormed(StudentsFrame(students)) && StudentsFrame(students).height == |students|
    ensures forall i :: 0 <= i < |students| ==> RiskCells(StudentsFrame(students), i)
  {
    forall i | 0 <= i < |students|
      ensures RiskCells(StudentsFrame(students), i)
    {
      RiskFrameRow(students, i);
    }
  }

  lemma RiskFrameRow(students: seq<Student>, i: nat)
    requires i < |students| && RiskRow(students[i])
    ensures WellFormed(StudentsFrame(students)) && i < StudentsFrame(students).height
    ensures RiskCells(StudentsFrame(students), i)
  {
    StudentCell(students, i, Risk);
    StudentCell(students, i, Intent);
    StudentCell(students, i, Feature(Stress));
    StudentCell(students, i, Feature(SelfStudy));
  }

  /** Every row of the frame holds the cells its student promises. */
  lemma SafeFrameCells(students: seq<Student>)
    requires forall i :: 0 <= i < |students| ==> SafeRow(students[i])
    ensures WellFormed(StudentsFrame(students)) && StudentsFrame(students).height == |students|
    ensures forall i :: 0 <= i < |students| ==> SafeCells(StudentsFrame(students), i)
  {
    forall i | 0 <= i < |students|
      ensures SafeCells(StudentsFrame(students), i)
    {
      SafeFrameRow(students, i);
    }
  }

  lemma SafeFrameRow(students: seq<Student>, i: nat)
    requires i < |students| && SafeRow(students[i])
    ensures WellFormed(StudentsFrame(students)) && i < StudentsFrame(students).height
    ensures SafeCells(StudentsFrame(students), i)
  {
    StudentCell(students, i, Risk);
    StudentCell(students, i, Intent);
    StudentCell(students, i, Feature(Stress));
    AverageCell(students, i);
  }

  lemma AverageCell(students: seq<Student>, i: nat)
    requires i < |students|
    ensures WellFormed(StudentsFrame(students)) && i < StudentsFrame(students).height
    ensures ColumnOrMissing(StudentsFrame(students), Feature(StudyAverage))[i] == Num(students[i].average)
  {
    AverageOf(students[i]);
    StudentCell(students, i, Feature(StudyAverage));
  }

  lemma AverageOf(s: Student)
    ensures Cell(s, Feature(StudyAverage)) == Num(s.average)
  {
  }

  /**
   * `generate_risk_students(n)`: `n` rows, one per loop iteration, each of
   * the archetype drawn for it, labelled at risk.
   */
  method GenerateRiskStudents(n: nat, rng: Rng) returns (df: Frame, ghost students: seq<Student>)
    ensures |students| == n && df == StudentsFrame(students)
    ensures forall i :: 0 <= i < n ==> RiskProfile(RiskKindOf(rng, i), students[i]) && RiskRow(students[i])
    ensures WellFormed(df) && df.height == n && (n > 0 ==> df.names == StudentColumns())
    ensures forall i :: 0 <= i < n ==> RiskCells(df, i)
  {
    var data: seq<map<Column, Value>> := [];
    students := [];
    for i := 0 to n
      invariant |students| == i && data == StudentRows(students)
      invariant forall k :: 0 <= k < i ==> RiskProfile(RiskKindOf(rng, k), students[k]) && RiskRow(students[k])
    {
      var student := NewRiskStudent(rng, i);
      StudentRowsSnoc(students, student);
      data := data + [StudentRow(student)];
      students := students + [student];
    }
    df := FrameOfRows(data, StudentColumns());
    RiskFrameCells(students);
  }

  /**
   * `generate_no_risk_students(n)`: `n` rows, each of the archetype drawn
   * for it, labelled not at risk.
   */
  method GenerateSafeStudents(n: nat, rng: Rng) returns (df: Frame, ghost students: seq<Student>)
    ensures |students| == n && df == StudentsFrame(students)
    ensures forall i :: 0 <= i < n ==> SafeProfile(SafeKindOf(rng, i), students[i]) && SafeRow(students[i])
    ensures WellFormed(df) && df.height == n && (n > 0 ==> df.names == StudentColumns())
    ensures forall i :: 0 <= i < n ==> SafeCells(df, i)
  {
    var data: seq<map<Column, Value>> := [];
    students := [];
    for i := 0 to n
      invariant |students| == i && data == StudentRows(students)
      invariant forall k :: 0 <= k < i ==> SafeProfile(SafeKindOf(rng, k), students[k]) && SafeRow(students[k])
    {
      var student := NewSafeStudent(rng, i);
      StudentRowsSnoc(students, student);
      data := data + [StudentRow(student)];
      students := students + [student];
    }
    df := FrameOfRows(data, StudentColumns());
    SafeFrameCells(students);
  }

  // ---------------------------------------------------------------------
  // The main part
  // ---------------------------------------------------------------------

  /** `df.empty`: no rows or no columns. */
  predicate Empty(f: Frame)
  {
    f.height == 0 || |f.names| == 0
  }

  /** `pd.DataFrame()`. */
  const NoData: Frame := Frame(0, [], [])

  /** `f` is `d` with a label column, derived from `d`'s intent column, added at the end. */
  predicate LabelAdded(d: Frame, f: Frame)
    requires WellFormed(d)
  {
    WellFormed(f) && f.height == d.height && Intent in d.names && Risk !in d.names &&
    f.names == d.names + [Risk] &&
    (forall c :: c in d.names ==> Get(f, c) == Get(d, c)) &&
    (forall i :: 0 <= i < d.height ==> Get(f, Risk)[i] == LabelCell(Get(d, Intent)[i]))
  }

  /** `d[Risk] = d[Intent].apply(...)`, the TypeError of a text intent as the error. */
  function AddLabel(d: Frame): (r: Result<Frame>)
    requires WellFormed(d) && Intent in d.names && Risk !in d.names
    ensures r.Ok? <==> NumericColumn(Get(d, Intent))
    ensures r.Err? ==> r.error == TypeMismatch(Intent)
    ensures r.Ok? ==> LabelAdded(d, r.value)
  {
    match RiskColumn(Get(d, Intent))
    case Err(e) => Err(e)
    case Ok(labels) =>
      RiskColumnCells(Get(d, Intent));
      Ok(Set(d, Risk, labels))
  }

  /**
   * The `try` block: the existing data set as read (`None` when reading
   * fails), its survey headers renamed when the attendance question is a
   * column, the label added when it is absent and the intent column is
   * present. Any exception, the TypeError of a text intent included,
   * leaves an empty frame.
   */
  function LoadExisting(read: Option<Frame>): (r: Frame)
    requires read.Some? ==> WellFormed(read.value)
    ensures WellFormed(r)
    ensures read.None? ==> r == NoData
    ensures read.Some? ==> (
      var d := Train.RenameSurvey(read.value);
      (Risk in d.names || Intent !in d.names ==> r == d) &&
      (Risk !in d.names && Intent in d.names && NumericColumn(Get(d, Intent)) ==> LabelAdded(d, r)) &&
      (Risk !in d.names && Intent in d.names && !NumericColumn(Get(d, Intent)) ==> r == NoData))
  {
    match read
    case None => NoData
    case Some(df) =>
      var d := Train.RenameSurvey(df);
      if Risk in d.names || Intent !in d.names then d
      else
        match AddLabel(d)
        case Err(_) => NoData
        case Ok(f) => f
  }

  /** `[c for c in generated if c in existing and c != 'rizika']`. */
  function Common(generated: seq<Column>, existing: seq<Column>): (cs: seq<Column>)
    ensures forall c :: c in cs <==> c in generated && c in existing && c != Risk
    ensures |cs| <= |generated|
  {
    if generated == [] then []
    else
      assert forall c :: c in generated <==> c == generated[0] || c in generated[1..];
      var rest := Common(generated[1..], existing);
      if generated[0] in existing && generated[0] != Risk then [generated[0]] + rest else rest
  }

  /** A column is numeric exactly when both of its halves are. */
  lemma NumericAppend(a: seq<Value>, b: seq<Value>)
    ensures NumericColumn(a + b) <==> NumericColumn(a) && NumericColumn(b)
  {
    if NumericColumn(a + b) {
      forall i | 0 <= i < |a|
        ensures !a[i].Text?
      {
        assert (a + b)[i] == a[i];
      }
      forall i | 0 <= i < |b|
        ensures !b[i].Text?
      {
        assert (a + b)[|a| + i] == b[i];
      }
    }
  }

  /** The existing rows over the common columns, followed by the generated rows over the same columns. */
  predicate Stacked(existing: Frame, generated: Frame, f: Frame)
    requires WellFormed(existing) && WellFormed(generated)
  {
    var common := Common(generated.names, existing.names);
    WellFormed(f) && f.height == existing.height + generated.height && f.names == common &&
    forall c :: c in common ==> Get(f, c) == Get(existing, c) + Get(generated, c)
  }

  /** `pd.concat([existing[common], generated[common]], ignore_index=True)`. */
  lemma StackedConcat(existing: Frame, generated: Frame)
    requires WellFormed(existing) && WellFormed(generated)
    ensures var common := Common(generated.names, existing.names);
      Select(existing, common).Ok? && Select(generated, common).Ok? &&
      Stacked(existing, generated, Concat(Select(existing, common).value, Select(generated, common).value))
  {
    var common := Common(generated.names, existing.names);
    var kept, added := Select(existing, common).value, Select(generated, common).value;
    NoNewNames(common, common);
    forall c | c in common
      ensures Get(Concat(kept, added), c) == Get(existing, c) + Get(generated, c)
    {
      SelectGet(existing, common, c);
      SelectGet(generated, common, c);
      ConcatSpec(kept, added, c);
      var col := Get(Concat(kept, added), c);
      assert col == col[..kept.height] + col[kept.height..];
    }
  }

  /**
   * The merged frame: the common columns stacked, and, when the intent
   * column is among them, the label derived from it added at the end.
   */
  predicate Merged(existing: Frame, generated: Frame, f: Frame)
    requires WellFormed(existing) && WellFormed(generated)
  {
    var common := Common(generated.names, existing.names);
    WellFormed(f) && f.height == existing.height + generated.height &&
    f.names == common + (if Intent in common then [Risk] else []) &&
    (forall c :: c in common ==> Get(f, c) == Get(existing, c) + Get(generated, c)) &&
    (Intent in common ==> forall i :: 0 <= i < f.height ==> Get(f, Risk)[i] == LabelCell(Get(f, Intent)[i]))
  }

  lemma StackedMerged(existing: Frame, generated: Frame, f: Frame)
    requires WellFormed(existing) && WellFormed(generated)
    requires Stacked(existing, generated, f) && Intent !in Common(generated.names, existing.names)
    ensures Merged(existing, generated, f)
  {
  }

  lemma LabelledMerged(existing: Frame, generated: Frame, s: Frame, f: Frame)
    requires WellFormed(existing) && WellFormed(generated)
    requires Stacked(existing, generated, s) && WellFormed(s) && LabelAdded(s, f)
    ensures Merged(existing, generated, f)
  {
    var common := Common(generated.names, existing.names);
    assert Intent in common;
    assert Get(f, Intent) == Get(s, Intent);
  }

  /**
   * The merge of the main part: over the common columns when the existing
   * frame is not empty, the generated frame alone otherwise; then the label
   * derived again from the intent column when the label is absent. A text
   * intent at that point raises an uncaught TypeError.
   */
  method MergeGenerated(existing: Frame, generated: Frame) returns (r: Result<Frame>)
    requires WellFormed(existing) && WellFormed(generated)
    ensures Empty(existing) && (Risk in generated.names || Intent !in generated.names) ==> r == Ok(generated)
    ensures Empty(existing) && Risk !in generated.names && Intent in generated.names ==>
      r == AddLabel(generated)
    ensures !Empty(existing) ==> (
      var common := Common(generated.names, existing.names);
      (r.Ok? <==> (Intent in common ==> NumericColumn(Get(existing, Intent)) && NumericColumn(Get(generated, Intent)))) &&
      (r.Err? ==> r.error == TypeMismatch(Intent)) &&
      (r.Ok? ==> Merged(existing, generated, r.value)))
  {
    var combined: Frame;
    if !Empty(existing) {
      var common := Common(generated.names, existing.names);
      StackedConcat(existing, generated);
      var kept := Select(existing, common).value;
      var added := Select(generated, common).value;
      combined := Concat(kept, added);
      if Intent in common {
        NumericAppend(Get(existing, Intent), Get(generated, Intent));
      } else {
        StackedMerged(existing, generated, combined);
      }
    } else {
      combined := generated;
    }
    if Risk !in combined.names && Intent in combined.names {
      var labelled := AddLabel(combined);
      if labelled.Err? {
        return Err(labelled.error);
      }
      if !Empty(existing) {
        LabelledMerged(existing, generated, combined, labelled.value);
      }
      combined := labelled.value;
    }
    r := Ok(combined);
  }

  /** The intent column of generated at-risk rows is numeric. */
  lemma RiskIntentsNumeric(generated: Frame)
    requires WellFormed(generated) && Intent in generated.names
    requires forall i :: 0 <= i < generated.height ==> RiskCells(generated, i)
    ensures NumericColumn(Get(generated, Intent))
  {
    forall i | 0 <= i < generated.height
      ensures !Get(generated, Intent)[i].Text?
    {
      assert RiskCells(generated, i);
    }
  }

  /** Below the existing rows, the label re-derived from the generated intents is always 1. */
  lemma GeneratedLabels(existing: Frame, generated: Frame, f: Frame)
    requires WellFormed(existing) && WellFormed(generated) && Merged(existing, generated, f)
    requires Intent in Common(generated.names, existing.names)
    requires forall i :: 0 <= i < generated.height ==> RiskCells(generated, i)
    ensures Risk in f.names
    ensures forall i :: existing.height <= i < f.height ==> Get(f, Risk)[i] == Num(1.0)
  {
    RiskIntentValues(generated);
    LabelsBelow(Get(existing, Intent), Get(generated, Intent), Get(f, Intent), Get(f, Risk));
  }

  /** Labels derived from stacked intents are 1 wherever the lower intents are 4 or 5. */
  lemma LabelsBelow(e: seq<Value>, g: seq<Value>, intent: seq<Value>, risk: seq<Value>)
    requires intent == e + g && |risk| == |intent|
    requires forall i :: 0 <= i < |risk| ==> risk[i] == LabelCell(intent[i])
    requires forall k :: 0 <= k < |g| ==> g[k] == Num(4.0) || g[k] == Num(5.0)
    ensures forall i :: |e| <= i < |risk| ==> risk[i] == Num(1.0)
  {
    forall i | |e| <= i < |risk|
      ensures risk[i] == Num(1.0)
    {
      assert intent[i] == g[i - |e|];
      HighIntentLabel(g[i - |e|]);
    }
  }

  /** The intents of generated at-risk rows are 4 and 5. */
  lemma RiskIntentValues(generated: Frame)
    requires WellFormed(generated) && Intent in generated.names
    requires forall i :: 0 <= i < generated.height ==> RiskCells(generated, i)
    ensures forall k :: 0 <= k < generated.height ==>
      Get(generated, Intent)[k] == Num(4.0) || Get(generated, Intent)[k] == Num(5.0)
  {
    forall k | 0 <= k < generated.height
      ensures Get(generated, Intent)[k] == Num(4.0) || Get(generated, Intent)[k] == Num(5.0)
    {
      assert RiskCells(generated, k);
    }
  }

  /** An intent of 4 or 5 labels the student at risk. */
  lemma HighIntentLabel(v: Value)
    requires v == Num(4.0) || v == Num(5.0)
    ensures LabelCell(v) == Num(1.0)
  {
  }

  /**
   * What the saved frame holds: the existing rows (none when the existing
   * frame is empty) and then the generated ones; a label column unless the
   * existing data lack the intent column; the at-risk label on every
   * generated row.
   */
  predicate Saved(existing: Frame, f: Frame)
  {
    var before := if Empty(existing) then 0 else existing.height;
    WellFormed(f) && f.height == before + RiskCount &&
    (Risk in f.names <==> Empty(existing) || Intent in existing.names) &&
    (Risk in f.names ==> forall i :: before <= i < f.height ==> Get(f, Risk)[i] == Num(1.0))
  }

  /** The generated frame the main part works with. */
  predicate RiskFrame(generated: Frame)
  {
    WellFormed(generated) && generated.height == RiskCount && generated.names == StudentColumns() &&
    forall i :: 0 <= i < RiskCount ==> RiskCells(generated, i)
  }

  /** With no existing data the generated frame is saved as it is. */
  lemma FreshSaved(existing: Frame, generated: Frame)
    requires Empty(existing) && RiskFrame(generated)
    ensures Saved(existing, generated)
  {
    forall i | 0 <= i < RiskCount
      ensures Get(generated, Risk)[i] == Num(1.0)
    {
      assert RiskCells(generated, i);
    }
  }

  /** With existing data the merged frame is saved. */
  lemma MergedSaved(existing: Frame, generated: Frame, f: Frame)
    requires WellFormed(existing) && !Empty(existing) && RiskFrame(generated)
    requires Merged(existing, generated, f)
    ensures Saved(existing, f)
  {
    var common := Common(generated.names, existing.names);
    assert Intent in common <==> Intent in existing.names;
    if Intent in common {
      GeneratedLabels(existing, generated, f);
    }
  }

  /**
   * The main part: load the existing data set, generate the at-risk
   * students, merge them in and save the result. `generated` is the frame
   * `generate_risk_students(100)` returned, `students` its rows. With no
   * existing data it is saved as it is; otherwise the merge of the two is
   * saved, and the merge fails exactly on a text intent among existing
   * rows that already had a label column.
   */
  method RegenerateDataset(read: Option<Frame>, rng: Rng)
    returns (r: Result<Frame>, ghost generated: Frame, ghost students: seq<Student>)
    requires read.Some? ==> WellFormed(read.value)
    ensures |students| == RiskCount && generated == StudentsFrame(students) && RiskFrame(generated)
    ensures forall i :: 0 <= i < RiskCount ==> RiskProfile(RiskKindOf(rng, i), students[i]) && RiskRow(students[i])
    ensures Empty(LoadExisting(read)) ==> r == Ok(generated)
    ensures !Empty(LoadExisting(read)) && r.Ok? ==> Merged(LoadExisting(read), generated, r.value)
    ensures r.Err? ==> r.error == TypeMismatch(Intent)
    ensures r.Err? <==> (
      var existing := LoadExisting(read);
      !Empty(existing) && Risk in existing.names && Intent in existing.names && !NumericColumn(Get(existing, Intent)))
    ensures r.Ok? ==> Saved(LoadExisting(read), r.value)
  {
    var existing := LoadExisting(read);
    var risk;
    risk, students := GenerateRiskStudents(RiskCount, rng);
    generated := risk;
    assert RiskFrame(generated);
    r := MergeGenerated(existing, risk);
    if Empty(existing) {
      FreshSaved(existing, generated);
    } else {
      RiskIntentsNumeric(generated);
      if r.Ok? {
        MergedSaved(existing, generated, r.value);
      }
    }
  }
}
