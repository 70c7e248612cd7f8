/*
 * The training script: survey headers renamed to the internal names, the
 * risk label derived from the intent score, feature cells coerced to
 * numbers, three classifier variants trained and evaluated, the variant
 * with the best recall selected, the model artifacts saved in sequence,
 * and the Random Forest's feature importances ranked. Splitting,
 * scaling, oversampling, fitting and scoring are one opaque learner.
 */
module Train {
  import opened Schema
  import opened Table
  import opened Numbers
  import opened Utils

  // ---------------------------------------------------------------------
  // Column rename and label
  // ---------------------------------------------------------------------

  /** `df.rename(columns=...)`, applied only when the attendance question is a column. */
  function RenameSurvey(df: Frame): (r: Frame)
    ensures r.height == df.height && r.cols == df.cols && |r.names| == |df.names|
    ensures Other(AttendanceHeader) in df.names ==>
      forall j :: 0 <= j < |df.names| ==> r.names[j] == Renamed(df.names[j])
    ensures Other(AttendanceHeader) !in df.names ==> r == df
  {
    if Other(AttendanceHeader) in df.names then
      Frame(df.height, seq(|df.names|, j requires 0 <= j < |df.names| => Renamed(df.names[j])), df.cols)
    else df
  }

  /**
   * After a rename the attendance column carries its internal name and no
   * survey question is left among the column names.
   */
  lemma RenameSpec(df: Frame)
    requires Other(AttendanceHeader) in df.names
    ensures Feature(Attendance) in RenameSurvey(df).names
    ensures forall c :: c in RenameSurvey(df).names ==> !(c.Other? && c.name in SurveyRenames)
  {
    var j :| 0 <= j < |df.names| && df.names[j] == Other(AttendanceHeader);
    assert SurveyRenames[AttendanceHeader] == Feature(Attendance);
    assert RenameSurvey(df).names[j] == Feature(Attendance);
    assert forall k :: k in SurveyRenames ==> !SurveyRenames[k].Other?;
  }

  /** `df['rizika'] = df['ketinu_mesti_studijas'].apply(...)` when the label column exists. */
  function AddRiskLabel(df: Frame): (r: Result<Frame>)
    requires WellFormed(df)
    ensures Intent !in df.names ==> r == Ok(df)
    ensures Intent in df.names ==> (r.Ok? <==> NumericColumn(Get(df, Intent)))
    ensures r.Ok? ==> WellFormed(r.value) && r.value.height == df.height
    ensures r.Ok? && Intent in df.names ==> (Risk in r.value.names &&
      forall i :: 0 <= i < df.height ==>
        Get(r.value, Risk)[i] == Num(CreateRiskLabel(Get(df, Intent)[i]).value as real))
  {
    if Intent !in df.names then Ok(df)
    else
      match RiskColumn(Get(df, Intent))
      case Err(e) => Err(e)
      case Ok(col) => Ok(Set(df, Risk, col))
  }

  // ---------------------------------------------------------------------
  // Feature cell coercion
  // ---------------------------------------------------------------------

  /** The text steps of the coercion: `%`, `-` and `/` deleted, `,` turned into `.`. */
  function CoerceText(t: string): (r: string)
    ensures '-' !in r && '%' !in r && '/' !in r && ',' !in r
  {
    var d := Delete(Delete(Delete(t, '%'), '-'), '/');
    DeleteMembers(t, '%');
    DeleteMembers(Delete(t, '%'), '-');
    DeleteMembers(Delete(Delete(t, '%'), '-'), '/');
    ReplaceMembers(d, ',', '.');
    Replace(d, ',', '.')
  }

  /**
   * `pd.to_numeric(str(v).replace(...), errors='coerce')` on one cell. A
   * number's text loses its sign; a missing cell stays missing; text that
   * does not parse becomes missing.
   */
  function CoerceCell(v: Value): (r: Value)
    ensures !r.Text?
    ensures r.Num? ==> r.x >= 0.0
    ensures v == Missing ==> r == Missing
    ensures v.Num? ==> r == Num(if v.x < 0.0 then -v.x else v.x)
  {
    match v
    case Missing => Missing
    case Num(x) => Num(if x < 0.0 then -x else x)
    case Text(t) =>
      var u := CoerceText(t);
      ParseFloatNonNegative(u);
      match ParseFloat(u)
      case None => Missing
      case Some(y) => Num(y)
  }

  /** Coercing an already coerced cell changes nothing. */
  lemma CoerceIdempotent(v: Value)
    ensures CoerceCell(CoerceCell(v)) == CoerceCell(v)
  {
  }

  /** A `/` or a `-` between digits is deleted: "2/4" and "2-4" both read as 24. */
  lemma SeparatorJoins(a: string, sep: char, b: string)
    requires sep == '/' || sep == '-'
    ensures CoerceText(a + [sep] + b) == CoerceText(a + b)
  {
    DeleteConcat(a + [sep], b, '%');
    DeleteConcat(a, [sep], '%');
    DeleteConcat(a, b, '%');
    var pa, pb := Delete(a, '%'), Delete(b, '%');
    assert Delete([sep], '%') == [sep] by {
      assert [sep][1..] == [];
    }
    DeleteConcat(pa + [sep], pb, '-');
    DeleteConcat(pa, [sep], '-');
    DeleteConcat(pa, pb, '-');
    var qa, qb := Delete(pa, '-'), Delete(pb, '-');
    assert Delete([sep], '-') == (if sep == '-' then [] else [sep]) by {
      assert [sep][1..] == [];
    }
    DeleteConcat(qa + Delete([sep], '-'), qb, '/');
    DeleteConcat(qa, Delete([sep], '-'), '/');
    DeleteConcat(qa, qb, '/');
    assert Delete(Delete([sep], '-'), '/') == [] by {
      if sep == '/' {
        assert [sep][1..] == [];
      }
    }
    assert qa + [] == qa;
  }

  /** `df[col]` after coercion. */
  function CleanColumn(col: seq<Value>): (r: seq<Value>)
    ensures |r| == |col| && NumericColumn(r)
    ensures forall i :: 0 <= i < |col| ==> r[i] == CoerceCell(col[i])
  {
    seq(|col|, i requires 0 <= i < |col| => CoerceCell(col[i]))
  }

  /** The cleaning loop after its first `k` feature columns. */
  function CleanedAfter(df: Frame, k: nat): (r: Frame)
    requires WellFormed(df) && k <= |GetFeatureColumns()|
    ensures WellFormed(r) && r.names == df.names && r.height == df.height
  {
    if k == 0 then df
    else
      var r := CleanedAfter(df, k - 1);
      var c := GetFeatureColumns()[k - 1];
      if c in r.names then Set(r, c, CleanColumn(Get(r, c))) else r
  }

  /** The first `k` feature columns are coerced and every other column is as it was. */
  lemma {:induction false} CleanedAfterSpec(df: Frame, k: nat)
    requires WellFormed(df) && k <= |GetFeatureColumns()|
    ensures forall c :: c in df.names ==>
      Get(CleanedAfter(df, k), c) ==
        if c in GetFeatureColumns()[..k] then CleanColumn(Get(df, c)) else Get(df, c)
  {
    var features := GetFeatureColumns();
    if k > 0 {
      CleanedAfterSpec(df, k - 1);
      assert features[..k] == features[..k - 1] + [features[k - 1]];
      assert features[k - 1] !in features[..k - 1];
    }
  }

  /**
   * The frame after the cleaning loop: every feature column present is
   * coerced cell by cell, every other column is left as it was.
   */
  function CleanedFeatures(df: Frame): (r: Frame)
    requires WellFormed(df)
    ensures WellFormed(r) && r.names == df.names && r.height == df.height
    ensures forall c :: c in df.names ==>
      Get(r, c) == if IsFeature(c) then CleanColumn(Get(df, c)) else Get(df, c)
  {
    var features := GetFeatureColumns();
    CleanedAfterSpec(df, |features|);
    assert features[..|features|] == features;
    forall c | IsFeature(c)
      ensures c in features
    {
      FeatureColumnsComplete(c.f);
    }
    CleanedAfter(df, |features|)
  }

  /** The cleaning loop of `train_all_models`, column by column. */
  method CleanFeatureColumns(df: Frame) returns (r: Frame)
    requires WellFormed(df)
    ensures r == CleanedFeatures(df)
  {
    r := df;
    var features := GetFeatureColumns();
    for k := 0 to |features|
      invariant r == CleanedAfter(df, k)
    {
      var c := features[k];
      if c in r.names {
        r := Set(r, c, CleanColumn(Get(r, c)));
      }
    }
  }

  /** After cleaning, feature preparation can only fail for an absent feature column. */
  lemma CleanedFeaturesPrepare(df: Frame, cleaned: Frame)
    requires WellFormed(df) && WellFormed(cleaned) && cleaned.names == df.names
    requires forall c :: c in df.names && IsFeature(c) ==> Get(cleaned, c) == CleanColumn(Get(df, c))
    ensures PrepareFeatures(cleaned, GetFeatureColumns()).Ok? <==>
      forall c :: c in GetFeatureColumns() ==> c in df.names
  {
    PrepareFeaturesSpec(cleaned, GetFeatureColumns());
  }

  // ---------------------------------------------------------------------
  // Variants, selection and artifacts
  // ---------------------------------------------------------------------

  /** The three variants, in the insertion order of the `models` dictionary. */
  datatype Variant = LogisticRegression | DecisionTree | RandomForest

  const Variants: seq<Variant> := [LogisticRegression, DecisionTree, RandomForest]

  function VariantName(v: Variant): string
  {
    match v
    case LogisticRegression => "Logistic Regression"
    case DecisionTree => "Decision Tree"
    case RandomForest => "Random Forest"
  }

  /** `str.lower` on the ASCII letters the variant names use. */
  function Lower(c: char): char
  {
    if 'A' <= c <= 'Z' then (c as int + 32) as char else c
  }

  /** `name.lower().replace(' ', '_')`. */
  function ArtifactName(name: string): (r: string)
    ensures |r| == |name|
    ensures forall i :: 0 <= i < |name| ==> r[i] == if name[i] == ' ' then '_' else Lower(name[i])
  {
    Replace(seq(|name|, i requires 0 <= i < |name| => Lower(name[i])), ' ', '_')
  }

  /** The artifact name of each variant. */
  function VariantArtifact(v: Variant): (r: string)
    ensures r == ArtifactName(VariantName(v))
  {
    match v
    case LogisticRegression =>
      assert ArtifactName(VariantName(v)) == "logistic_regression";
      "logistic_regression"
    case DecisionTree =>
      assert ArtifactName(VariantName(v)) == "decision_tree";
      "decision_tree"
    case RandomForest =>
      assert ArtifactName(VariantName(v)) == "random_forest";
      "random_forest"
  }

  /** The three artifact names differ, and only the Random Forest's is the serving name. */
  lemma VariantArtifactsDistinct(v: Variant, w: Variant)
    ensures v != w ==> VariantArtifact(v) != VariantArtifact(w)
    ensures VariantArtifact(v) == ServingName <==> v == RandomForest
  {
    var a, b := VariantArtifact(v), VariantArtifact(w);
    if v != w {
      assert a[0] != b[0];
    }
    if v != RandomForest {
      assert a[0] != ServingName[0];
    }
  }

  /** The confusion-matrix image of a variant, named after its model. */
  function ConfusionMatrixFile(v: Variant): (r: string)
    ensures |r| == 28 + |VariantArtifact(v)|
    ensures r[..24] == "models/confusion_matrix_" && r[|r| - 4..] == ".png"
    ensures r[24..|r| - 4] == VariantArtifact(v)
  {
    "models/confusion_matrix_" + VariantArtifact(v) + ".png"
  }

  /** Each variant's image has its own file: no image overwrites another. */
  lemma ConfusionMatrixFilesDistinct(v: Variant, w: Variant)
    requires v != w
    ensures ConfusionMatrixFile(v) != ConfusionMatrixFile(w)
  {
    VariantArtifactsDistinct(v, w);
  }

  /**
   * `max(keys, key=recall)`: Python keeps the first maximum, replacing it
   * only by a strictly greater value.
   */
  function FirstMax(xs: seq<real>): (k: nat)
    requires xs != []
    ensures k < |xs|
    ensures forall i :: 0 <= i < |xs| ==> xs[i] <= xs[k]
    ensures forall i :: 0 <= i < k ==> xs[i] < xs[k]
  {
    if |xs| == 1 then 0
    else
      var k := FirstMax(xs[..|xs| - 1]);
      if xs[|xs| - 1] > xs[k] then |xs| - 1 else k
  }

  /** The first maximum is the only index that is maximal and strictly above everything before it. */
  lemma FirstMaxUnique(xs: seq<real>, k: nat)
    requires k < |xs|
    requires forall i :: 0 <= i < |xs| ==> xs[i] <= xs[k]
    requires forall i :: 0 <= i < k ==> xs[i] < xs[k]
    ensures FirstMax(xs) == k
  {
    var m := FirstMax(xs);
    assert xs[m] <= xs[k] && xs[k] <= xs[m];
  }

  /** The test recall of each variant, in dictionary order. */
  datatype Recalls = Recalls(logistic: real, tree: real, forest: real)

  function RecallSeq(r: Recalls): seq<real>
  {
    [r.logistic, r.tree, r.forest]
  }

  /** The recall `results[name]['recall']` of one variant. */
  function RecallOf(r: Recalls, v: Variant): real
  {
    match v
    case LogisticRegression => r.logistic
    case DecisionTree => r.tree
    case RandomForest => r.forest
  }

  /** Where a variant stands in the dictionary's insertion order. */
  function Position(v: Variant): (k: nat)
    ensures k < |Variants| && Variants[k] == v
  {
    match v
    case LogisticRegression => 0
    case DecisionTree => 1
    case RandomForest => 2
  }

  /**
   * The selected variant: no variant has a greater recall, and every
   * variant before it in dictionary order has a strictly smaller one.
   */
  function BestVariant(r: Recalls): (v: Variant)
    ensures forall w :: RecallOf(r, w) <= RecallOf(r, v)
    ensures forall w :: Position(w) < Position(v) ==> RecallOf(r, w) < RecallOf(r, v)
  {
    var xs := RecallSeq(r);
    var k := FirstMax(xs);
    assert forall w :: xs[Position(w)] == RecallOf(r, w);
    assert Position(Variants[k]) == k;
    Variants[k]
  }

  /** Those two properties pick one variant: the first maximum of the recalls. */
  lemma BestVariantUnique(r: Recalls, v: Variant)
    requires forall w :: RecallOf(r, w) <= RecallOf(r, v)
    requires forall w :: Position(w) < Position(v) ==> RecallOf(r, w) < RecallOf(r, v)
    ensures BestVariant(r) == v
  {
    var b := BestVariant(r);
    assert RecallOf(r, b) <= RecallOf(r, v) && RecallOf(r, v) <= RecallOf(r, b);
    if Position(b) < Position(v) {
    } else if Position(v) < Position(b) {
    } else {
      assert Variants[Position(b)] == Variants[Position(v)];
    }
  }

  /** On a tie the earlier variant wins: equal recalls everywhere select Logistic Regression. */
  lemma BestVariantTies(x: real)
    ensures BestVariant(Recalls(x, x, x)) == LogisticRegression
  {
    FirstMaxUnique(RecallSeq(Recalls(x, x, x)), 0);
  }

  /** A saved model file and its scaler file: which variant, and which fitted scaler. */
  datatype Artifact = Artifact(model: Variant, scaler: nat)

  /** The name `predict_student_risk` loads by default. */
  const ServingName: string := "random_forest"

  /** Writes applied in order to a store of named artifacts: the last write of a name wins. */
  function ApplyWrites(store: map<string, Artifact>, writes: seq<(string, Artifact)>): map<string, Artifact>
    decreases |writes|
  {
    if writes == [] then store
    else ApplyWrites(store[writes[0].0 := writes[0].1], writes[1..])
  }

  /** A name written at position k and never again holds the artifact of that write. */
  lemma {:induction false} LastWriteWins(store: map<string, Artifact>, writes: seq<(string, Artifact)>, k: nat)
    requires k < |writes|
    requires forall j :: k < j < |writes| ==> writes[j].0 != writes[k].0
    ensures writes[k].0 in ApplyWrites(store, writes)
    ensures ApplyWrites(store, writes)[writes[k].0] == writes[k].1
    decreases |writes|
  {
    if k == 0 {
      Untouched(store[writes[0].0 := writes[0].1], writes[1..], writes[0].0);
    } else {
      LastWriteWins(store[writes[0].0 := writes[0].1], writes[1..], k - 1);
    }
  }

  /** A name no write touches keeps its entry. */
  lemma {:induction false} Untouched(store: map<string, Artifact>, writes: seq<(string, Artifact)>, name: string)
    requires forall j :: 0 <= j < |writes| ==> writes[j].0 != name
    ensures name in ApplyWrites(store, writes) <==> name in store
    ensures name in store ==> ApplyWrites(store, writes)[name] == store[name]
    decreases |writes|
  {
    if writes != [] {
      Untouched(store[writes[0].0 := writes[0].1], writes[1..], name);
    }
  }

  /** The save sequence: the best variant as the serving model, then every variant under its own name. */
  function SaveSequence(best: Variant, scaler: nat): (ws: seq<(string, Artifact)>)
    ensures |ws| == 4 && ws[0] == (ServingName, Artifact(best, scaler))
  {
    [(ServingName, Artifact(best, scaler))] +
    seq(3, i requires 0 <= i < 3 => (VariantArtifact(Variants[i]), Artifact(Variants[i], scaler)))
  }

  /** After the serving save, each variant is saved once under its own name; every save has the one scaler. */
  lemma SaveSequenceWrites(best: Variant, scaler: nat)
    ensures forall v :: SaveSequence(best, scaler)[Position(v) + 1] == (VariantArtifact(v), Artifact(v, scaler))
    ensures forall j :: 0 <= j < 4 ==> SaveSequence(best, scaler)[j].1.scaler == scaler
  {
  }

  /**
   * As written, the serving artifact always ends up holding the Random
   * Forest, whichever variant had the best recall; every variant is saved
   * under its own name; every artifact carries the same scaler.
   */
  lemma SavedArtifacts(store: map<string, Artifact>, best: Variant, scaler: nat)
    ensures var s := ApplyWrites(store, SaveSequence(best, scaler));
      ServingName in s && s[ServingName] == Artifact(RandomForest, scaler) &&
      forall v :: VariantArtifact(v) in s && s[VariantArtifact(v)] == Artifact(v, scaler)
  {
    var ws := SaveSequence(best, scaler);
    forall v
      ensures VariantArtifact(v) in ApplyWrites(store, ws)
      ensures ApplyWrites(store, ws)[VariantArtifact(v)] == Artifact(v, scaler)
    {
      var k := match v case LogisticRegression => 1 case DecisionTree => 2 case RandomForest => 3;
      assert ws[k] == (VariantArtifact(v), Artifact(v, scaler));
      forall j | k < j < |ws|
        ensures ws[j].0 != ws[k].0
      {
        VariantArtifactsDistinct(Variants[j - 1], v);
      }
      LastWriteWins(store, ws, k);
    }
    assert VariantArtifact(RandomForest) == ServingName;
  }

  /** A serving artifact other than the Random Forest is overwritten: the best model is never served unless it is the Random Forest. */
  lemma BestModelOverwritten(store: map<string, Artifact>, best: Variant, scaler: nat)
    requires best != RandomForest
    ensures ServingName in ApplyWrites(store, SaveSequence(best, scaler)) &&
      ApplyWrites(store, SaveSequence(best, scaler))[ServingName].model != best
  {
    SavedArtifacts(store, best, scaler);
  }

  /** The evidently intended order: every variant under its own name, then the best as the serving model. */
  function SaveSequenceCorrected(best: Variant, scaler: nat): (ws: seq<(string, Artifact)>)
    ensures |ws| == 4
  {
    seq(3, i requires 0 <= i < 3 => (VariantArtifact(Variants[i]), Artifact(Variants[i], scaler))) +
    [(ServingName, Artifact(best, scaler))]
  }

  /** With the corrected order the serving artifact holds the best variant. */
  lemma CorrectedServesBest(store: map<string, Artifact>, best: Variant, scaler: nat)
    ensures var s := ApplyWrites(store, SaveSequenceCorrected(best, scaler));
      ServingName in s && s[ServingName] == Artifact(best, scaler)
  {
    LastWriteWins(store, SaveSequenceCorrected(best, scaler), 3);
  }

  /** The `models` directory: artifacts by name, updated by `save_model`. */
  class ArtifactStore {
    var artifacts: map<string, Artifact>

    constructor()
      ensures artifacts == map[]
    {
      artifacts := map[];
    }

    /** `save_model`: the model file and the scaler file of `name`, overwriting earlier ones. */
    method SaveModel(model: Variant, scaler: nat, name: string)
      modifies this
      ensures artifacts == old(artifacts)[name := Artifact(model, scaler)]
    {
      artifacts := artifacts[name := Artifact(model, scaler)];
    }

    /** The save sequence of the training script. */
    method SaveAll(best: Variant, scaler: nat)
      modifies this
      ensures artifacts == ApplyWrites(old(artifacts), SaveSequence(best, scaler))
    {
      ghost var ws := SaveSequence(best, scaler);
      ghost var start := artifacts;
      SaveModel(best, scaler, ServingName);
      assert artifacts == start[ws[0].0 := ws[0].1];
      for i := 0 to 3
        invariant ApplyWrites(start, ws) == ApplyWrites(artifacts, ws[i + 1..])
      {
        assert ws[i + 1] == (VariantArtifact(Variants[i]), Artifact(Variants[i], scaler));
        SaveModel(Variants[i], scaler, VariantArtifact(Variants[i]));
      }
    }
  }

  // ---------------------------------------------------------------------
  // Feature importance
  // ---------------------------------------------------------------------

  /** Rows in order of non-increasing importance. */
  predicate Descending(rows: seq<(Column, real)>)
  {
    forall i, j :: 0 <= i < j < |rows| ==> rows[i].1 >= rows[j].1
  }

  /** `x` placed before the first row it is at least as important as. */
  function Insert(x: (Column, real), rows: seq<(Column, real)>): (r: seq<(Column, real)>)
    ensures |r| == |rows| + 1 && multiset(r) == multiset(rows) + multiset{x}
    ensures r[0] == x || (rows != [] && r[0] == rows[0])
  {
    if rows == [] || x.1 >= rows[0].1 then [x] + rows
    else
      assert rows == [rows[0]] + rows[1..];
      [rows[0]] + Insert(x, rows[1..])
  }

  /** Inserting into a descending table keeps it descending. */
  lemma {:induction false} InsertDescending(x: (Column, real), rows: seq<(Column, real)>)
    requires Descending(rows)
    ensures Descending(Insert(x, rows))
  {
    if rows != [] && x.1 < rows[0].1 {
      var rest := Insert(x, rows[1..]);
      InsertDescending(x, rows[1..]);
      assert rest[0].1 <= rows[0].1;
      var r := [rows[0]] + rest;
      assert r == Insert(x, rows);
      forall i, j | 0 <= i < j < |r|
        ensures r[i].1 >= r[j].1
      {
        if i == 0 {
          assert r[j] == rest[j - 1] && rest[0].1 >= rest[j - 1].1;
        } else {
          assert r[i] == rest[i - 1] && r[j] == rest[j - 1];
        }
      }
    }
  }

  /** `sort_values('importance', ascending=False)`: a descending permutation of the rows. */
  function SortByImportance(rows: seq<(Column, real)>): (r: seq<(Column, real)>)
    ensures |r| == |rows| && multiset(r) == multiset(rows)
    ensures Descending(r)
  {
    if rows == [] then []
    else
      assert rows == [rows[0]] + rows[1..];
      InsertDescending(rows[0], SortByImportance(rows[1..]));
      Insert(rows[0], SortByImportance(rows[1..]))
  }

  /** The importance table before sorting: one row per feature column. */
  function ImportanceRows(importances: seq<real>): (rows: seq<(Column, real)>)
    requires |importances| == 12
    ensures |rows| == 12 && forall j :: 0 <= j < 12 ==> rows[j] == (GetFeatureColumns()[j], importances[j])
  {
    seq(12, j requires 0 <= j < 12 => (GetFeatureColumns()[j], importances[j]))
  }

  /** Every feature appears in the ranking exactly once, with its own importance. */
  lemma RankingCoversFeatures(importances: seq<real>, j: nat)
    requires |importances| == 12 && j < 12
    ensures (GetFeatureColumns()[j], importances[j]) in SortByImportance(ImportanceRows(importances))
  {
    var rows := ImportanceRows(importances);
    assert rows[j] in multiset(rows);
    assert rows[j] in multiset(SortByImportance(rows));
  }

  /** The ranking holds nothing but feature rows. */
  lemma RankingOnlyFeatures(importances: seq<real>, x: (Column, real))
    requires |importances| == 12 && x in SortByImportance(ImportanceRows(importances))
    ensures IsFeature(x.0) && x.0 in GetFeatureColumns()
  {
    var rows := ImportanceRows(importances);
    assert x in multiset(SortByImportance(rows));
    assert x in multiset(rows);
    var j :| 0 <= j < 12 && rows[j] == x;
  }

  // ---------------------------------------------------------------------
  // train_all_models
  // ---------------------------------------------------------------------

  /** What the opaque training steps hand back: recalls, the forest's importances and the fitted scaler. */
  datatype Learned = Learned(recalls: Recalls, importances: seq<real>, scaler: nat)

  /** Split, scale, oversample, fit and score; None when a library call raises. */
  type Learner = (Frame, seq<Value>) -> Option<Learned>

  datatype Outcome = Outcome(best: Variant, learned: Learned, ranking: seq<(Column, real)>)

  /**
   * What `train_all_models` hands to the split, from the renamed frame:
   * the label is derived (or taken as it is), the feature columns are
   * cleaned, `prepare_features` gives X and the label column gives y.
   */
  function TrainingFrom(df: Frame): Result<(Frame, seq<Value>)>
    requires WellFormed(df)
  {
    match AddRiskLabel(df)
    case Err(e) => Err(e)
    case Ok(labelled) =>
      if Risk !in labelled.names then Err(KeyNotFound(Risk))
      else
        var cleaned := CleanedFeatures(labelled);
        match PrepareFeatures(cleaned, GetFeatureColumns())
        case Err(e) => Err(e)
        case Ok(x) => Ok((x, Get(cleaned, Risk)))
  }

  /** The training input of a frame as read from disk. */
  function TrainingData(raw: Frame): Result<(Frame, seq<Value>)>
    requires WellFormed(raw)
  {
    TrainingFrom(RenameSurvey(raw))
  }

  /** What the learner returns on the training input, or the error raised before or inside it. */
  function Training(raw: Frame, learn: Learner): Result<Learned>
    requires WellFormed(raw)
  {
    match TrainingData(raw)
    case Err(e) => Err(e)
    case Ok(xy) =>
      match learn(xy.0, xy.1)
      case None => Err(TrainingFailed)
      case Some(l) => Ok(l)
  }

  /**
   * The training input exists exactly when a numeric intent column or a
   * label column is present and every feature column is present; a text
   * intent score fails with a TypeError, a frame with neither column with
   * a KeyError on the label. y is the label derived from the intent score
   * (or the label column as read), X has the twelve feature columns.
   */
  lemma TrainingFromSpec(df: Frame)
    requires WellFormed(df)
    ensures TrainingFrom(df).Ok? <==>
      (Intent in df.names ==> NumericColumn(Get(df, Intent))) &&
      (Intent in df.names || Risk in df.names) &&
      forall c :: c in GetFeatureColumns() ==> c in df.names
    ensures Intent in df.names && !NumericColumn(Get(df, Intent)) ==>
      TrainingFrom(df) == Err(TypeMismatch(Intent))
    ensures Intent !in df.names && Risk !in df.names ==> TrainingFrom(df) == Err(KeyNotFound(Risk))
    ensures TrainingFrom(df).Ok? ==>
      TrainingFrom(df).value.0.names == GetFeatureColumns() &&
      TrainingFrom(df).value.0.height == df.height && |TrainingFrom(df).value.1| == df.height
    ensures TrainingFrom(df).Ok? ==> forall i :: 0 <= i < df.height ==>
      TrainingFrom(df).value.1[i] ==
        if Intent in df.names then Num(CreateRiskLabel(Get(df, Intent)[i]).value as real) else Get(df, Risk)[i]
  {
    var labelled := AddRiskLabel(df);
    if labelled.Ok? {
      var l := labelled.value;
      assert Risk in l.names <==> Intent in df.names || Risk in df.names by {
        if Intent in df.names {
          assert l == Set(df, Risk, RiskColumn(Get(df, Intent)).value);
        }
      }
      if Risk in l.names {
        var cleaned := CleanedFeatures(l);
        CleanedFeaturesPrepare(l, cleaned);
        assert forall c :: c in GetFeatureColumns() ==> (c in l.names <==> c in df.names) by {
          if Intent in df.names {
            assert l == Set(df, Risk, RiskColumn(Get(df, Intent)).value);
          }
        }
        assert !IsFeature(Risk);
      }
    }
  }

  /** A feature cell that coerces to a number reaches X unchanged. */
  lemma TrainingKeepsPresentCells(df: Frame, j: nat, i: nat)
    requires WellFormed(df) && TrainingFrom(df).Ok?
    requires j < 12 && i < df.height
    ensures GetFeatureColumns()[j] in df.names
    ensures CoerceCell(Get(df, GetFeatureColumns()[j])[i]) != Missing ==>
      TrainingFrom(df).value.0.cols[j][i] == CoerceCell(Get(df, GetFeatureColumns()[j])[i])
  {
    TrainingFromSpec(df);
    var c := GetFeatureColumns()[j];
    var l := AddRiskLabel(df).value;
    assert !IsFeature(Risk);
    assert Get(l, c) == Get(df, c) by {
      if Intent in df.names {
        assert l == Set(df, Risk, RiskColumn(Get(df, Intent)).value);
      }
    }
    var cleaned := CleanedFeatures(l);
    PrepareFeaturesSpec(cleaned, GetFeatureColumns());
  }

  /**
   * `train_all_models` on a frame already read from disk. The learner is
   * called on the training input; a failure before it or inside it leaves
   * the store as it was. After training the four artifacts are saved, the
   * best model being the first with maximal recall, and the importances
   * are ranked; a learner returning other than twelve importances fails
   * only after the saves.
   */
  method TrainAllModels(store: ArtifactStore, raw: Frame, learn: Learner) returns (r: Result<Outcome>)
    requires WellFormed(raw)
    modifies store
    ensures Training(raw, learn).Err? ==>
      r == Err(Training(raw, learn).error) && store.artifacts == old(store.artifacts)
    ensures Training(raw, learn).Ok? ==>
      var l := Training(raw, learn).value;
      store.artifacts == ApplyWrites(old(store.artifacts), SaveSequence(BestVariant(l.recalls), l.scaler)) &&
      r == if |l.importances| == 12 then Ok(Outcome(BestVariant(l.recalls), l, SortByImportance(ImportanceRows(l.importances))))
           else Err(LengthMismatch)
  {
    var df := RenameSurvey(raw);
    var labelled := AddRiskLabel(df);
    if labelled.Err? {
      return Err(labelled.error);
    }
    df := labelled.value;
    if Risk !in df.names {
      return Err(KeyNotFound(Risk));
    }
    df := CleanFeatureColumns(df);
    var x := PrepareFeatures(df, GetFeatureColumns());
    if x.Err? {
      return Err(x.error);
    }
    var y := Get(df, Risk);
    var learned := learn(x.value, y);
    if learned.None? {
      return Err(TrainingFailed);
    }
    var l := learned.value;
    var best := BestVariant(l.recalls);
    store.SaveAll(best, l.scaler);
    if |l.importances| != 12 {
      return Err(LengthMismatch);
    }
    var ranking := SortByImportance(ImportanceRows(l.importances));
    return Ok(Outcome(best, l, ranking));
  }
}
