/*
 * The data contract shared by every script of the student-risk pipeline:
 * the twelve numeric features, the intent-to-quit label and the derived
 * `rizika` column, the raw cell values a CSV file can hold, the survey's
 * natural-language headers, and the error conditions the scripts raise.
 */
module Schema {

  /** The errors the scripts raise (as Python exceptions) or report. */
  datatype Error =
    | MissingColumns(missing: seq<Column>)  // ValueError listing the absent feature columns
    | KeyNotFound(key: Column)              // KeyError on a column or dict key
    | TypeMismatch(key: Column)             // TypeError: arithmetic or comparison on a text cell
    | NaNToInteger(key: Column)             // ValueError: int() of a missing (NaN) value
    | EmptySample                           // ValueError: sampling a row from an empty frame
    | ArtifactNotFound(name: string)        // the model or scaler file of that name is absent
    | TrainingFailed                        // the library calls of the training step raised
    | ScoringFailed                         // the scaler or the classifier raised while scoring
    | LengthMismatch                        // a frame built from columns of unequal length

  datatype Result<T> = Ok(value: T) | Err(error: Error)

  datatype Option<T> = None | Some(value: T)

  /** A CSV cell: missing (NaN), a number, or text that was not read as a number. */
  datatype Value = Missing | Num(x: real) | Text(s: string)

  /** The twelve features of the model, in the order of the feature contract. */
  datatype Feature =
    | Attendance | SelfStudy | Stress | Work | Sleep | SocialMedia
    | StudyAverage | HighSchoolAverage | Exam1 | Exam2 | Exam3 | FinancialStress

  /**
   * A column of a data frame. A column whose name is one of the internal
   * names below is always written with its constructor, never as Other.
   */
  datatype Column = Feature(f: Feature) | Intent | Risk | Other(name: string)

  function FeatureName(f: Feature): string
  {
    match f
    case Attendance => "lankomumas_proc"
    case SelfStudy => "savarankisko_mokymosi_val"
    case Stress => "streso_lygis"
    case Work => "darbo_valandos"
    case Sleep => "miego_valandos"
    case SocialMedia => "socialiniu_tinklu_val"
    case StudyAverage => "studiju_vidurkis"
    case HighSchoolAverage => "dvyliktos_klases_vidurkis"
    case Exam1 => "brandos_egzaminas_1"
    case Exam2 => "brandos_egzaminas_2"
    case Exam3 => "brandos_egzaminas_3"
    case FinancialStress => "finansinis_stresas"
  }

  function ColumnName(c: Column): string
  {
    match c
    case Feature(f) => FeatureName(f)
    case Intent => "ketinu_mesti_studijas"
    case Risk => "rizika"
    case Other(n) => n
  }

  /** The features in contract order. */
  const Features: seq<Feature> :=
    [Attendance, SelfStudy, Stress, Work, Sleep, SocialMedia,
     StudyAverage, HighSchoolAverage, Exam1, Exam2, Exam3, FinancialStress]

  /** The feature columns in contract order. */
  const FeatureColumns: seq<Column> :=
    [Feature(Attendance), Feature(SelfStudy), Feature(Stress), Feature(Work),
     Feature(Sleep), Feature(SocialMedia), Feature(StudyAverage),
     Feature(HighSchoolAverage), Feature(Exam1), Feature(Exam2), Feature(Exam3),
     Feature(FinancialStress)]

  predicate IsFeature(c: Column)
  {
    c.Feature?
  }

  /** The survey question that feeds each internal column. */
  function SurveyHeader(c: Column): Option<string>
  {
    match c
    case Feature(Attendance) => Some("18. Lankomumas šiame semestre (%)")
    case Feature(SelfStudy) => Some("20. Savarankiško mokymosi valandos per savaitę")
    case Feature(Stress) => Some("23. Patiriu stiprų stresą")
    case Feature(Work) => Some("9. Darbo valandos per savaitę")
    case Feature(Sleep) => Some("21. Miego valandos per parą")
    case Feature(SocialMedia) => Some("22. Laikas socialiniuose tinkluose per dieną (val.)")
    case Feature(StudyAverage) => Some("13. Koks yra jūsų bendras visų studijų semestrų vidurkis (1–10)?")
    case Feature(HighSchoolAverage) => Some("17. 12 klasės metinis vidurkis (1–10)")
    case Feature(Exam1) => Some("14. Brandos egzaminas: Matematika (1–100, 0=nelaikiau)")
    case Feature(Exam2) => Some("15. Brandos egzaminas: Lietuvių kalba (1–100, 0=nelaikiau)")
    case Feature(Exam3) => Some("16. Brandos egzaminas: Anglų kalba (1–100, 0=nelaikiau)")
    case Feature(FinancialStress) => Some("7. Finansinis stresas (1–5)")
    case Intent => Some("24. Ketinu nutraukti studijas")
    case _ => None
  }

  const AttendanceHeader: string := "18. Lankomumas šiame semestre (%)"

  /** The header-to-column rename table used by the training and generator scripts. */
  const SurveyRenames: map<string, Column> :=
    map[
      "18. Lankomumas šiame semestre (%)" := Feature(Attendance),
      "20. Savarankiško mokymosi valandos per savaitę" := Feature(SelfStudy),
      "23. Patiriu stiprų stresą" := Feature(Stress),
      "9. Darbo valandos per savaitę" := Feature(Work),
      "21. Miego valandos per parą" := Feature(Sleep),
      "22. Laikas socialiniuose tinkluose per dieną (val.)" := Feature(SocialMedia),
      "13. Koks yra jūsų bendras visų studijų semestrų vidurkis (1–10)?" := Feature(StudyAverage),
      "17. 12 klasės metinis vidurkis (1–10)" := Feature(HighSchoolAverage),
      "14. Brandos egzaminas: Matematika (1–100, 0=nelaikiau)" := Feature(Exam1),
      "15. Brandos egzaminas: Lietuvių kalba (1–100, 0=nelaikiau)" := Feature(Exam2),
      "16. Brandos egzaminas: Anglų kalba (1–100, 0=nelaikiau)" := Feature(Exam3),
      "7. Finansinis stresas (1–5)" := Feature(FinancialStress),
      "24. Ketinu nutraukti studijas" := Intent
    ]

  /** pandas `rename`: a column named by a key of the table takes the mapped name. */
  function Renamed(c: Column): Column
  {
    if c.Other? && c.name in SurveyRenames then SurveyRenames[c.name] else c
  }
}
