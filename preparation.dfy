/*
 * The data-preparation script: the `rizika` label derived from the intent
 * score, then every feature column that has missing cells filled in place
 * with its mean, then the feature columns selected for the summary that
 * is printed before the frame is saved.
 */
module Preparation {
  import opened Schema
  import opened Table
  import opened Utils

  /** A feature column is filled only when it is present and has missing cells. */
  predicate NeedsFill(df: Frame, c: Column)
    requires WellFormed(df)
  {
    c in df.names && MissingCount(Get(df, c)) > 0
  }

  /** A column after the fill step: imputed when it has missing cells, untouched otherwise. */
  function FillStep(col: seq<Value>): (r: seq<Value>)
    ensures |r| == |col|
  {
    if MissingCount(col) > 0 then ImputeMean(col) else col
  }

  /**
   * The first of the columns `cs` whose fill raises: present, with missing
   * cells (so its mean is taken), and holding text.
   */
  function FirstUnfillable(df: Frame, cs: seq<Column>): (r: Option<Column>)
    requires WellFormed(df)
    ensures r.None? <==> forall c :: c in cs && NeedsFill(df, c) ==> NumericColumn(Get(df, c))
    ensures r.Some? ==> r.value in cs && NeedsFill(df, r.value) && !NumericColumn(Get(df, r.value))
  {
    if cs == [] then None
    else if NeedsFill(df, cs[0]) && !NumericColumn(Get(df, cs[0])) then Some(cs[0])
    else
      assert forall c :: c in cs <==> c == cs[0] || c in cs[1..];
      FirstUnfillable(df, cs[1..])
  }

  /** Frames that agree on every feature column agree on which feature fill raises first. */
  lemma {:induction false} FirstUnfillableSame(a: Frame, b: Frame, cs: seq<Column>)
    requires WellFormed(a) && WellFormed(b) && forall c :: c in cs ==> c.Feature?
    requires forall f :: Feature(f) in a.names <==> Feature(f) in b.names
    requires forall f :: Feature(f) in a.names ==> Get(a, Feature(f)) == Get(b, Feature(f))
    ensures FirstUnfillable(a, cs) == FirstUnfillable(b, cs)
  {
    if cs != [] {
      assert cs[0] in cs;
      assert forall c :: c in cs[1..] ==> c in cs;
      FirstUnfillableSame(a, b, cs[1..]);
    }
  }

  /**
   * Lines 19-20: when the intent column is present, the label column is
   * (re)written from it; a text intent raises a TypeError.
   */
  method AddRiskLabel(df: Frame) returns (r: Result<Frame>)
    requires WellFormed(df)
    ensures Intent !in df.names ==> r == Ok(df)
    ensures Intent in df.names ==> (r.Ok? <==> NumericColumn(Get(df, Intent)))
    ensures r.Err? ==> r.error == TypeMismatch(Intent)
    ensures r.Ok? ==> Labelled(df, r.value)
  {
    if Intent in df.names {
      var labels := RiskColumn(Get(df, Intent));
      if labels.Err? {
        return Err(labels.error);
      }
      RiskColumnCells(Get(df, Intent));
      r := Ok(Set(df, Risk, labels.value));
    } else {
      r := Ok(df);
    }
  }

  /**
   * `f` is `df` after the label step: same rows, the label column added
   * (or rewritten) when the intent column is present, nothing else changed.
   */
  predicate Labelled(df: Frame, f: Frame)
    requires WellFormed(df)
  {
    WellFormed(f) && f.height == df.height &&
    f.names == (if Intent in df.names && Risk !in df.names then df.names + [Risk] else df.names) &&
    (forall c :: c in df.names && (c != Risk || Intent !in df.names) ==> Get(f, c) == Get(df, c)) &&
    (Intent in df.names ==> forall i :: 0 <= i < df.height ==> Get(f, Risk)[i] == LabelCell(Get(df, Intent)[i]))
  }

  /** The state of the fill loop after the first `k` feature columns. */
  predicate FilledUpTo(labelled: Frame, df: Frame, features: seq<Column>, k: nat)
    requires WellFormed(labelled) && k <= |features|
  {
    WellFormed(df) && df.height == labelled.height && df.names == labelled.names &&
    (forall j :: 0 <= j < k && features[j] in labelled.names ==>
      Get(df, features[j]) == FillStep(Get(labelled, features[j]))) &&
    (forall c :: c in labelled.names && c !in features[..k] ==> Get(df, c) == Get(labelled, c))
  }

  /** One iteration of the fill loop on a column that does not raise. */
  lemma FillOne(labelled: Frame, df: Frame, features: seq<Column>, k: nat)
    requires WellFormed(labelled) && k < |features| && Distinct(features)
    requires FilledUpTo(labelled, df, features, k)
    ensures var c := features[k];
      var next := if NeedsFill(df, c) then Set(df, c, ImputeMean(Get(df, c))) else df;
      FilledUpTo(labelled, next, features, k + 1)
    ensures features[k] in labelled.names ==> Get(df, features[k]) == Get(labelled, features[k])
  {
    var c := features[k];
    assert features[..k + 1] == features[..k] + [c];
    if c in labelled.names {
      assert c !in features[..k];
      assert Get(df, c) == Get(labelled, c);
    }
    if NeedsFill(df, c) {
      var next := Set(df, c, ImputeMean(Get(df, c)));
      forall j | 0 <= j < k && features[j] in labelled.names
        ensures Get(next, features[j]) == FillStep(Get(labelled, features[j]))
      {
        assert features[j] != c;
      }
    }
  }

  /** The loop meets the first column whose fill raises at the same point as `FirstUnfillable`. */
  lemma UnfillableStep(labelled: Frame, df: Frame, features: seq<Column>, k: nat)
    requires WellFormed(labelled) && k < |features| && Distinct(features)
    requires FilledUpTo(labelled, df, features, k)
    ensures var c := features[k];
      FirstUnfillable(labelled, features[k..]) ==
        if NeedsFill(df, c) && !NumericColumn(Get(df, c)) then Some(c) else FirstUnfillable(labelled, features[k + 1..])
  {
    var c := features[k];
    assert features[k..][0] == c && features[k..][1..] == features[k + 1..];
    if c in labelled.names {
      assert c !in features[..k];
    }
  }

  /** The label step leaves every feature column as it was. */
  lemma FeaturesUnchanged(input: Frame, df: Frame)
    requires WellFormed(input) && Labelled(input, df)
    ensures forall f :: Feature(f) in input.names <==> Feature(f) in df.names
    ensures forall f :: Feature(f) in input.names ==> Get(input, Feature(f)) == Get(df, Feature(f))
  {
  }

  /** After the whole loop every feature column is filled. */
  lemma FilledFeatures(input: Frame, labelled: Frame, df: Frame, features: seq<Column>)
    requires WellFormed(input) && Labelled(input, labelled) && features == GetFeatureColumns()
    requires FilledUpTo(labelled, df, features, |features|)
    requires forall f :: Feature(f) in input.names
    ensures forall f :: Feature(f) in df.names && Get(df, Feature(f)) == FillStep(Get(input, Feature(f)))
    ensures WellFormed(df) && FeaturesFilled(input, df)
  {
    FeaturesUnchanged(input, labelled);
    forall f
      ensures Feature(f) in df.names && Get(df, Feature(f)) == FillStep(Get(input, Feature(f)))
    {
      FilledFeature(labelled, df, features, FeatureIndex(f));
    }
  }

  lemma FilledFeature(labelled: Frame, df: Frame, features: seq<Column>, j: nat)
    requires WellFormed(labelled) && j < |features| && features[j] in labelled.names
    requires FilledUpTo(labelled, df, features, |features|)
    ensures features[j] in df.names && Get(df, features[j]) == FillStep(Get(labelled, features[j]))
  {
  }

  /** After the whole loop every other column is as the label step left it. */
  lemma FilledOthers(labelled: Frame, df: Frame, features: seq<Column>)
    requires WellFormed(labelled) && features == GetFeatureColumns()
    requires FilledUpTo(labelled, df, features, |features|)
    ensures forall c :: c in labelled.names && !c.Feature? ==> Get(df, c) == Get(labelled, c)
  {
    assert features[..|features|] == features;
  }

  /**
   * Lines 30-34: the loop over the given feature columns; each one that is
   * present and has missing cells is filled in place with its mean, and the
   * first such column holding text raises a TypeError.
   */
  method FillFeatures(labelled: Frame, features: seq<Column>) returns (r: Result<Frame>)
    requires WellFormed(labelled) && Distinct(features)
    ensures r.Ok? <==> FirstUnfillable(labelled, features).None?
    ensures r.Err? ==> r.error == TypeMismatch(FirstUnfillable(labelled, features).value)
    ensures r.Ok? ==> FilledUpTo(labelled, r.value, features, |features|)
  {
    var df := labelled;
    for k := 0 to |features|
      invariant FilledUpTo(labelled, df, features, k)
      invariant FirstUnfillable(labelled, features[k..]) == FirstUnfillable(labelled, features)
    {
      var c := features[k];
      FillOne(labelled, df, features, k);
      UnfillableStep(labelled, df, features, k);
      if NeedsFill(df, c) {
        if !NumericColumn(Get(df, c)) {
          return Err(TypeMismatch(c));
        }
        df := Set(df, c, ImputeMean(Get(df, c)));
      }
    }
    assert features[|features|..] == [];
    r := Ok(df);
  }

  /**
   * What `prepare_dataset` returns and saves: the same rows; the label
   * column derived from the intent column when that is present; every
   * feature column filled with its mean where it had missing cells; every
   * other column unchanged.
   */
  predicate Prepared(input: Frame, f: Frame)
    requires WellFormed(input)
  {
    SameRows(input, f) && FeaturesFilled(input, f) && OthersKept(input, f) && LabelDerived(input, f)
  }

  predicate SameRows(input: Frame, f: Frame)
  {
    WellFormed(f) && f.height == input.height &&
    f.names == (if Intent in input.names && Risk !in input.names then input.names + [Risk] else input.names)
  }

  predicate FeaturesFilled(input: Frame, f: Frame)
    requires WellFormed(input) && WellFormed(f)
  {
    forall g :: Feature(g) in f.names && Feature(g) in input.names &&
      Get(f, Feature(g)) == FillStep(Get(input, Feature(g)))
  }

  predicate OthersKept(input: Frame, f: Frame)
    requires WellFormed(input) && SameRows(input, f)
  {
    forall c :: c in input.names && !c.Feature? && (c != Risk || Intent !in input.names) ==>
      Get(f, c) == Get(input, c)
  }

  predicate LabelDerived(input: Frame, f: Frame)
    requires WellFormed(input) && SameRows(input, f)
  {
    Intent in input.names ==> forall i :: 0 <= i < input.height ==> Get(f, Risk)[i] == LabelCell(Get(input, Intent)[i])
  }

  lemma PreparedFrom(input: Frame, labelled: Frame, df: Frame)
    requires WellFormed(input) && Labelled(input, labelled)
    requires FilledUpTo(labelled, df, GetFeatureColumns(), 12)
    requires forall g :: Feature(g) in input.names
    ensures Prepared(input, df)
  {
    FilledFeatures(input, labelled, df, GetFeatureColumns());
    FilledOthers(labelled, df, GetFeatureColumns());
    assert SameRows(input, df);
    KeptFrom(input, labelled, df);
    LabelFrom(input, labelled, df);
  }

  lemma KeptFrom(input: Frame, labelled: Frame, df: Frame)
    requires WellFormed(input) && Labelled(input, labelled) && SameRows(input, df)
    requires forall c :: c in labelled.names && !c.Feature? ==> Get(df, c) == Get(labelled, c)
    ensures OthersKept(input, df)
  {
  }

  lemma LabelFrom(input: Frame, labelled: Frame, df: Frame)
    requires WellFormed(input) && Labelled(input, labelled) && SameRows(input, df)
    requires forall c :: c in labelled.names && !c.Feature? ==> Get(df, c) == Get(labelled, c)
    ensures LabelDerived(input, df)
  {
    if Intent in input.names {
      assert Get(df, Risk) == Get(labelled, Risk);
    }
  }

  /** The summary selects every feature column only when the input has them all. */
  lemma SummaryFeatures(input: Frame, df: Frame, features: seq<Column>)
    requires WellFormed(input) && WellFormed(df) && features == GetFeatureColumns()
    requires forall g :: Feature(g) in input.names <==> Feature(g) in df.names
    requires Select(df, features).Ok?
    ensures forall g :: Feature(g) in input.names
  {
    forall g
      ensures Feature(g) in input.names
    {
      FeatureColumnsComplete(g);
    }
  }

  /** The KeyError of the summary names an absent feature column. */
  lemma SummaryError(input: Frame, df: Frame, features: seq<Column>)
    requires WellFormed(input) && WellFormed(df) && features == GetFeatureColumns()
    requires forall g :: Feature(g) in input.names <==> Feature(g) in df.names
    requires Select(df, features).Err?
    ensures exists g :: Feature(g) !in input.names
    ensures Select(df, features).error.KeyNotFound?
    ensures Select(df, features).error.key.Feature? && Select(df, features).error.key !in input.names
  {
  }

  /**
   * `prepare_dataset` on the frame read from the input file: the label
   * step, the fill loop over the feature columns in contract order, then
   * `df[feature_columns]` for the summary, which raises a KeyError when a
   * feature column is absent. The frame returned is the one saved.
   */
  method PrepareDataset(input: Frame) returns (r: Result<Frame>)
    requires WellFormed(input)
    ensures r.Ok? <==>
      (Intent in input.names ==> NumericColumn(Get(input, Intent))) &&
      FirstUnfillable(input, GetFeatureColumns()).None? &&
      forall g :: Feature(g) in input.names
    ensures r.Err? ==> (
      if Intent in input.names && !NumericColumn(Get(input, Intent)) then r.error == TypeMismatch(Intent)
      else if FirstUnfillable(input, GetFeatureColumns()).Some? then
        r.error == TypeMismatch(FirstUnfillable(input, GetFeatureColumns()).value)
      else r.error.KeyNotFound? && r.error.key.Feature? && r.error.key !in input.names)
    ensures r.Ok? ==> Prepared(input, r.value)
  {
    var labelled := AddRiskLabel(input);
    if labelled.Err? {
      return Err(labelled.error);
    }
    var features := GetFeatureColumns();
    FeaturesUnchanged(input, labelled.value);
    FirstUnfillableSame(input, labelled.value, features);
    var filled := FillFeatures(labelled.value, features);
    if filled.Err? {
      return Err(filled.error);
    }
    var df := filled.value;
    var described := Select(df, features);
    if described.Err? {
      SummaryError(input, df, features);
      return Err(described.error);
    }
    SummaryFeatures(input, df, features);
    PreparedFrom(input, labelled.value, df);
    r := Ok(df);
  }
}
