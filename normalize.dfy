/*
 * Normalisation of the raw survey export into the training format: the two
 * cell cleaners and the convert / impute / drop pipeline of
 * `normalize_survey_data`.
 */
module Normalize {
  import opened Schema
  import opened Numbers
  import opened Table

  /** Values above 100 become 100, values below 0 become 0. */
  function Clamp(x: real): (r: real)
    ensures 0.0 <= r <= 100.0
    ensures 0.0 <= x <= 100.0 ==> r == x
    ensures x > 100.0 ==> r == 100.0
    ensures x < 0.0 ==> r == 0.0
  {
    if x > 100.0 then 100.0 else if x < 0.0 then 0.0 else x
  }

  /** The text `clean_percentage` hands to `float`. */
  function PercentageText(s: string): string
  {
    Strip(Replace(Delete(s, '%'), ',', '.'))
  }

  /**
   * `clean_percentage`: missing stays missing; otherwise the text without
   * `%`, with a decimal comma, trimmed, parsed and clamped to [0, 100];
   * unparseable text gives None instead of raising.
   */
  function CleanPercentage(v: Value): (r: Option<real>)
    ensures v.Missing? ==> r.None?
    ensures r.Some? ==> 0.0 <= r.value <= 100.0
    ensures v.Num? ==> r == Some(Clamp(v.x))
  {
    match v
    case Missing => None
    case Num(x) => Some(Clamp(x))
    case Text(s) =>
      match ParseFloat(PercentageText(s))
      case Some(x) => Some(Clamp(x))
      case None => None
  }

  /** The text `clean_number` inspects: decimal comma, every `-` deleted, trimmed. */
  function NumberText(s: string): string
  {
    Strip(Delete(Replace(s, ',', '.'), '-'))
  }

  lemma NumberTextHasNoDash(s: string)
    ensures '-' !in NumberText(s)
  {
    DeleteMembers(Replace(s, ',', '.'), '-');
    StripSubset(Delete(Replace(s, ',', '.'), '-'));
  }

  /**
   * `clean_number` as written. The `-` test comes after every `-` is gone,
   * so only `/` selects the average of the number tokens; a number cell is
   * printed and stripped of its sign, i.e. it becomes its absolute value.
   */
  function CleanNumber(v: Value): (r: Option<real>)
    ensures v.Missing? ==> r.None?
    ensures r.Some? ==> r.value >= 0.0
  {
    match v
    case Missing => None
    case Num(x) => Some(if x < 0.0 then -x else x)
    case Text(s) =>
      var t := NumberText(s);
      NumberTextHasNoDash(s);
      ParseFloatNonNegative(t);
      if '-' in t || '/' in t then
        var parts := NumberTokens(t);
        if parts != [] then
          NumberTokensNonNegative(t);
          AverageNonNegative(parts);
          Some(Average(parts))
        else ParseFloat(t)
      else ParseFloat(t)
  }

  /** `clean_number` with the range test made before the signs are deleted. */
  function CleanNumberRanged(v: Value): (r: Option<real>)
    ensures v.Missing? ==> r.None?
    ensures r.Some? ==> r.value >= 0.0
  {
    match v
    case Missing => None
    case Num(x) => Some(if x < 0.0 then -x else x)
    case Text(s) =>
      var u := Strip(Replace(s, ',', '.'));
      if '-' in u || '/' in u then
        var parts := NumberTokens(u);
        if parts != [] then
          NumberTokensNonNegative(u);
          AverageNonNegative(parts);
          Some(Average(parts))
        else
          NumberTextHasNoDash(s);
          ParseFloatNonNegative(NumberText(s));
          ParseFloat(NumberText(s))
      else
        ParseFloatNonNegative(u);
        ParseFloat(u)
  }

  // ---------------------------------------------------------------------
  // Properties of the cleaners

  /** A `%` anywhere in the text does not change the cleaned percentage. */
  lemma PercentSignIgnored(a: string, b: string)
    ensures PercentageText(a + "%" + b) == PercentageText(a + b)
    ensures CleanPercentage(Text(a + "%" + b)) == CleanPercentage(Text(a + b))
  {
    DeleteConcat(a + "%", b, '%');
    DeleteConcat(a, "%", '%');
    DeleteConcat(a, b, '%');
    assert Delete("%", '%') == [] by {
      assert "%"[1..] == [];
    }
    assert Delete(a, '%') + [] == Delete(a, '%');
  }

  /** A decimal comma reads as a decimal point. */
  lemma DecimalCommaIsPoint(a: string, b: string)
    ensures PercentageText(a + "," + b) == PercentageText(a + "." + b)
    ensures CleanPercentage(Text(a + "," + b)) == CleanPercentage(Text(a + "." + b))
  {
    var da, db := Delete(a, '%'), Delete(b, '%');
    DeleteConcat(a + ",", b, '%');
    DeleteConcat(a, ",", '%');
    DeleteConcat(a + ".", b, '%');
    DeleteConcat(a, ".", '%');
    DeleteAbsent(",", '%');
    DeleteAbsent(".", '%');
    ReplaceConcat(da + ",", db, ',', '.');
    ReplaceConcat(da, ",", ',', '.');
    ReplaceConcat(da + ".", db, ',', '.');
    ReplaceConcat(da, ".", ',', '.');
    assert Replace(",", ',', '.') == "." == Replace(".", ',', '.');
  }

  /** Text without `%` or `,` and without edge blanks passes the percentage steps unchanged. */
  lemma PercentageTextPlain(t: string)
    requires '%' !in t && ',' !in t && Strip(t) == t
    ensures PercentageText(t) == t
  {
    DeleteAbsent(t, '%');
    ReplaceAbsent(t, ',', '.');
  }

  /** Text without `,` or `-` and without edge blanks passes the number steps unchanged. */
  lemma NumberTextPlain(t: string)
    requires ',' !in t && '-' !in t && Strip(t) == t
    ensures NumberText(t) == t
  {
    ReplaceAbsent(t, ',', '.');
    DeleteAbsent(t, '-');
  }

  /** Digits alone pass through both cleaners' text steps unchanged. */
  lemma PlainText(d: string)
    requires d != [] && AllDigits(d)
    ensures PercentageText(d) == d && NumberText(d) == d
    ensures '/' !in d && '-' !in d
  {
    NoPointInDigits(d);
    DigitsUnblanked(d);
    PercentageTextPlain(d);
    NumberTextPlain(d);
  }

  /** A plain digit string cleans to its value, clamped. */
  lemma DigitsPercentage(d: string)
    requires d != [] && AllDigits(d)
    ensures CleanPercentage(Text(d)) == Some(Clamp(DigitsValue(d) as real))
  {
    PlainText(d);
    ParseDigits(d);
  }

  /** A decimal with a comma cleans to its value, clamped. */
  lemma CommaPercentage(ip: string, fp: string)
    requires ip != [] && AllDigits(ip) && AllDigits(fp)
    ensures CleanPercentage(Text(ip + "," + fp)) == Some(Clamp(DecimalValue(ip, fp)))
  {
    DecimalCommaIsPoint(ip, fp);
    DecimalText(ip, fp);
    ParseDecimal(ip, fp);
  }

  /** A minus sign in front of digits gives a negative number, clamped to 0. */
  lemma NegativePercentage(d: string)
    requires d != [] && AllDigits(d)
    ensures CleanPercentage(Text("-" + d)) == Some(0.0)
  {
    var m := ['-'] + d;
    assert "-" + d == m;
    DigitsLack(d, '%');
    DigitsLack(d, ',');
    assert m[0] == '-' && m[|m| - 1] == d[|d| - 1] && IsDigit(d[|d| - 1]);
    StripUnblanked(m);
    PercentageTextPlain(m);
    assert m[1..] == d;
    ParseDigits(d);
    DigitsUnsigned(d);
  }

  lemma DigitsUnsigned(d: string)
    requires d != [] && AllDigits(d)
    ensures ParseUnsigned(d) == Some(DigitsValue(d) as real)
  {
    DigitsLack(d, '.');
  }

  /** `ip.fp` passes the percentage text steps unchanged. */
  lemma DecimalText(ip: string, fp: string)
    requires ip != [] && AllDigits(ip) && AllDigits(fp)
    ensures PercentageText(ip + "." + fp) == ip + "." + fp
  {
    var t := ip + "." + fp;
    assert t == ip + ['.'] + fp;
    JoinLacks(ip, '.', fp, '%');
    JoinLacks(ip, '.', fp, ',');
    if fp == [] {
      assert t == ip + ['.'];
      assert IsDigit(ip[0]) && t[0] == ip[0] && t[|t| - 1] == '.';
      StripUnblanked(t);
    } else {
      JoinUnblanked(ip, '.', fp);
    }
    PercentageTextPlain(t);
  }

  /** A `-` is simply deleted: "a-b" cleans like "ab". */
  lemma DashIsDeleted(a: string, b: string)
    ensures NumberText(a + "-" + b) == NumberText(a + b)
    ensures CleanNumber(Text(a + "-" + b)) == CleanNumber(Text(a + b))
  {
    var ra, rb := Replace(a, ',', '.'), Replace(b, ',', '.');
    ReplaceConcat(a + "-", b, ',', '.');
    ReplaceConcat(a, "-", ',', '.');
    ReplaceConcat(a, b, ',', '.');
    assert Replace("-", ',', '.') == "-";
    DeleteConcat(ra + "-", rb, '-');
    DeleteConcat(ra, "-", '-');
    DeleteConcat(ra, rb, '-');
    assert Delete("-", '-') == [] by {
      assert "-"[1..] == [];
    }
    assert Delete(ra, '-') + [] == Delete(ra, '-');
  }

  /** "a-b" for digit strings reads as the single number ab. */
  lemma DashJoins(a: string, b: string)
    requires a != [] && b != [] && AllDigits(a) && AllDigits(b)
    ensures CleanNumber(Text(a + "-" + b)) == Some(DigitsValue(a + b) as real)
  {
    DashIsDeleted(a, b);
    assert AllDigits(a + b);
    PlainText(a + b);
    ParseDigits(a + b);
  }

  /**
   * Whenever the cleaned text holds a `/` and at least one number token,
   * `clean_number` is the average of the tokens.
   */
  lemma SlashAverages(s: string)
    requires '/' in NumberText(s) && NumberTokens(NumberText(s)) != []
    ensures CleanNumber(Text(s)) == Some(Average(NumberTokens(NumberText(s))))
  {
  }

  /** "a/b" for digit strings keeps its text, so its tokens are a and b. */
  lemma SlashPairText(a: string, b: string)
    requires a != [] && b != [] && AllDigits(a) && AllDigits(b)
    ensures NumberText(a + "/" + b) == a + "/" + b && '/' in a + "/" + b
  {
    var t := a + ['/'] + b;
    assert a + "/" + b == t;
    JoinLacks(a, '/', b, ',');
    JoinLacks(a, '/', b, '-');
    JoinUnblanked(a, '/', b);
    NumberTextPlain(t);
    assert t[|a|] == '/';
  }

  /** The two tokens of "a<sep>b" average to (a + b) / 2, e.g. "2/4" to 3. */
  lemma PairAverage(a: string, sep: char, b: string)
    requires a != [] && b != [] && AllDigits(a) && AllDigits(b) && !IsDigit(sep) && sep != '.'
    ensures NumberTokens(a + [sep] + b) != []
    ensures Average(NumberTokens(a + [sep] + b)) == (DigitsValue(a) as real + DigitsValue(b) as real) / 2.0
  {
    TokensOfRange(a, sep, b);
    PairSum(DigitsValue(a) as real, DigitsValue(b) as real);
  }

  lemma PairSum(x: real, y: real)
    ensures Average([x, y]) == (x + y) / 2.0
  {
    var parts := [x, y];
    assert parts[1..] == [y] && [y][1..] == [];
    assert Sum([y]) == y;
    assert Sum(parts) == x + y;
    assert |parts| as real == 2.0;
  }

  /** Text with a `/` and no digit cleans to None: no token, and `float` rejects the `/`. */
  lemma SlashWithoutDigits(s: string)
    requires '/' in s && forall c :: c in s ==> !IsDigit(c)
    ensures CleanNumber(Text(s)) == None
  {
    var r := Replace(s, ',', '.');
    var d := Delete(r, '-');
    var t := NumberText(s);
    ReplaceMembers(s, ',', '.');
    DeleteMembers(r, '-');
    StripSubset(d);
    StripKeeps(d, '/');
    assert forall c :: c in t ==> !IsDigit(c);
    NoDigitsNoTokens(t);
    if ParseFloat(t).Some? {
      ParseFloatChars(t, '/');
    }
  }

  /** The tokens of "a<sep>b" for digit strings a, b and a separator that is neither digit nor point. */
  lemma TokensOfRange(a: string, sep: char, b: string)
    requires a != [] && b != [] && AllDigits(a) && AllDigits(b) && !IsDigit(sep) && sep != '.'
    ensures NumberTokens(a + [sep] + b) == [DigitsValue(a) as real, DigitsValue(b) as real]
  {
    var rest := [sep] + b;
    assert a + [sep] + b == a + rest;
    TokensOfDigits(a, rest);
    SkipsSeparator(sep, b);
    TokensOfDigit(b);
  }

  lemma SkipsSeparator(sep: char, b: string)
    requires !IsDigit(sep)
    ensures NumberTokens([sep] + b) == NumberTokens(b)
  {
    assert ([sep] + b)[1..] == b;
  }

  lemma TokensOfDigit(b: string)
    requires b != [] && AllDigits(b)
    ensures NumberTokens(b) == [DigitsValue(b) as real]
  {
    TokensOfDigits(b, []);
    assert b + [] == b;
  }

  /**
   * The corrected cleaner: whenever the trimmed text holds a `-` and at
   * least one number token, the result is the average of the tokens.
   */
  lemma RangeIsAveraged(s: string)
    requires var u := Strip(Replace(s, ',', '.')); '-' in u && NumberTokens(u) != []
    ensures CleanNumberRanged(Text(s)) == Some(Average(NumberTokens(Strip(Replace(s, ',', '.')))))
  {
  }

  /** "a-b" for digit strings keeps its text under the corrected cleaner's steps. */
  lemma DashPairText(a: string, b: string)
    requires a != [] && b != [] && AllDigits(a) && AllDigits(b)
    ensures Strip(Replace(a + "-" + b, ',', '.')) == a + "-" + b && '-' in a + "-" + b
  {
    var t := a + ['-'] + b;
    assert a + "-" + b == t;
    JoinLacks(a, '-', b, ',');
    ReplaceAbsent(t, ',', '.');
    JoinUnblanked(a, '-', b);
    assert t[|a|] == '-';
  }

  // ---------------------------------------------------------------------
  // normalize_survey_data

  /** The columns of the normalised frame, in the order they are assigned. */
  const OutputColumns: seq<Column> := FeatureColumns + [Intent]

  /** The survey header each output column is read from. */
  function HeaderColumn(c: Column): Column
  {
    match SurveyHeader(c)
    case Some(h) => Other(h)
    case None => c
  }

  function InputColumns(): (hs: seq<Column>)
    ensures |hs| == |OutputColumns|
    ensures forall j :: 0 <= j < |hs| ==> hs[j] == HeaderColumn(OutputColumns[j])
  {
    seq(|OutputColumns|, j requires 0 <= j < |OutputColumns| => HeaderColumn(OutputColumns[j]))
  }

  /** The cleaner applied to column `c`'s cells: percentages for attendance, numbers elsewhere. */
  function CleanCell(c: Column, v: Value): (r: Value)
    ensures !r.Text?
  {
    var x := if c == Feature(Attendance) then CleanPercentage(v) else CleanNumber(v);
    match x
    case Some(y) => Num(y)
    case None => Missing
  }

  /**
   * The thirteen assignments `normalized_df[c] = df[header].apply(cleaner)`,
   * which raise KeyError at the first absent header.
   */
  function Convert(df: Frame): (r: Result<Frame>)
    requires WellFormed(df)
    ensures r.Err? <==> exists j :: 0 <= j < |InputColumns()| && InputColumns()[j] !in df.names
    ensures r.Ok? ==> WellFormed(r.value) && r.value.names == OutputColumns && r.value.height == df.height
  {
    var hs := InputColumns();
    match FirstAbsent(df.names, hs)
    case Some(h) => Err(KeyNotFound(h))
    case None =>
      Ok(Frame(df.height, OutputColumns,
        seq(|hs|, j requires 0 <= j < |hs| =>
          seq(df.height, i requires 0 <= i < df.height => CleanCell(OutputColumns[j], Get(df, hs[j])[i])))))
  }

  /** The frame after the fill loop: every column but the label imputed with its own mean. */
  function ImputeAll(f: Frame): (r: Frame)
    requires WellFormed(f)
    ensures WellFormed(r) && r.names == f.names && r.height == f.height
  {
    Frame(f.height, f.names,
      seq(|f.cols|, j requires 0 <= j < |f.cols| =>
        if f.names[j] == Intent then f.cols[j] else ImputeMean(f.cols[j])))
  }

  /** What `normalize_survey_data` returns for a survey frame. */
  function Normalized(df: Frame): Result<Frame>
    requires WellFormed(df)
  {
    match Convert(df)
    case Err(e) => Err(e)
    case Ok(n) => Ok(DropMissing(ImputeAll(n), Intent))
  }

  lemma OutputColumnsDistinct()
    ensures Distinct(OutputColumns)
    ensures |OutputColumns| == 13 && OutputColumns[12] == Intent
    ensures forall j :: 0 <= j < 12 ==> OutputColumns[j] != Intent
  {
  }

  /**
   * `normalize_survey_data`: converts the survey columns, then walks the
   * columns replacing each non-label column by its mean-filled copy, then
   * drops the rows without a label.
   */
  method NormalizeSurveyData(df: Frame) returns (r: Result<Frame>)
    requires WellFormed(df)
    ensures r == Normalized(df)
  {
    var converted := Convert(df);
    if converted.Err? {
      return Err(converted.error);
    }
    var n := converted.value;
    var c0 := n;
    OutputColumnsDistinct();
    var i := 0;
    while i < |n.names|
      invariant ImputedUpTo(c0, n, i)
    {
      var col := n.names[i];
      ImputeStep(c0, n, i);
      if col != Intent {
        GetAt(n, i);
        SetAt(n, i, ImputeMean(Get(n, col)));
        n := Set(n, col, ImputeMean(Get(n, col)));
      }
      i := i + 1;
    }
    ImputedAll(c0, n);
    r := Ok(DropMissing(n, Intent));
  }

  /** The fill loop's state: the first `i` columns imputed as `ImputeAll` does, the rest as converted. */
  predicate ImputedUpTo(c0: Frame, n: Frame, i: nat)
    requires WellFormed(c0) && c0.names == OutputColumns
  {
    i <= |OutputColumns| && WellFormed(n) && n.names == OutputColumns && n.height == c0.height &&
    (forall j :: 0 <= j < i ==> n.cols[j] == ImputeAll(c0).cols[j]) &&
    (forall j :: i <= j < |n.cols| ==> n.cols[j] == c0.cols[j])
  }

  /** One iteration of the fill loop. */
  lemma ImputeStep(c0: Frame, n: Frame, i: nat)
    requires WellFormed(c0) && c0.names == OutputColumns && i < |OutputColumns| && ImputedUpTo(c0, n, i)
    ensures ImputedUpTo(c0, if n.names[i] != Intent then n.(cols := n.cols[i := ImputeMean(n.cols[i])]) else n, i + 1)
  {
    assert n.cols[i] == c0.cols[i];
  }

  /** After the loop the frame is `ImputeAll` of the converted one. */
  lemma ImputedAll(c0: Frame, n: Frame)
    requires WellFormed(c0) && c0.names == OutputColumns && ImputedUpTo(c0, n, |OutputColumns|)
    ensures n == ImputeAll(c0)
  {
    assert n.cols == ImputeAll(c0).cols;
  }

  // ---------------------------------------------------------------------
  // Properties of the normalised frame

  /** The output has the twelve features and the label, in assignment order. */
  lemma NormalizedColumns(df: Frame)
    requires WellFormed(df)
    ensures Normalized(df).Ok? ==> Normalized(df).value.names == OutputColumns
    ensures Normalized(df).Err? <==>
            exists j :: 0 <= j < |InputColumns()| && InputColumns()[j] !in df.names
  {
  }

  /**
   * Row `k` of the output is input row `Kept(label)[k]`: rows survive exactly
   * when their label cleaned to a number, and keep their order; each feature
   * cell is the cleaned cell, or the column's mean over all rows when it
   * cleaned to nothing.
   */
  lemma NormalizedRows(df: Frame)
    requires WellFormed(df) && Normalized(df).Ok?
    ensures var n := Convert(df).value;
            var out := Normalized(df).value;
            var idx := Kept(n.cols[12]);
            out.height == |idx| &&
            (forall k, l :: 0 <= k < l < |idx| ==> idx[k] < idx[l]) &&
            (forall i :: 0 <= i < df.height ==> (i in idx <==> n.cols[12][i] != Missing)) &&
            (forall k :: 0 <= k < |idx| ==> out.cols[12][k] == n.cols[12][idx[k]] != Missing) &&
            (forall j, k :: 0 <= j < 12 && 0 <= k < |idx| ==>
               out.cols[j][k] == FillMissing(n.cols[j], Mean(n.cols[j]))[idx[k]])
  {
    var n := Convert(df).value;
    OutputColumnsDistinct();
    GetAt(ImputeAll(n), 12);
    KeptSpec(n.cols[12]);
    var idx := Kept(n.cols[12]);
    forall k | 0 <= k < |idx|
      ensures n.cols[12][idx[k]] != Missing
    {
      assert idx[k] in idx;
    }
  }

  /**
   * Every cell of the output is a number, except that a feature whose
   * column cleaned to nothing at all stays missing; attendance lies in
   * [0, 100] and every other column is non-negative.
   */
  lemma NormalizedRanges(df: Frame)
    requires WellFormed(df) && Normalized(df).Ok?
    ensures var n := Convert(df).value;
            var out := Normalized(df).value;
            (forall j, k :: 0 <= j < 13 && 0 <= k < out.height ==> !out.cols[j][k].Text?) &&
            (forall j, k :: 0 <= j < 13 && 0 <= k < out.height && out.cols[j][k].Num? ==>
               out.cols[j][k].x >= 0.0) &&
            (forall k :: 0 <= k < out.height && out.cols[0][k].Num? ==> out.cols[0][k].x <= 100.0) &&
            (forall j, k :: 0 <= j < 12 && 0 <= k < out.height && Mean(n.cols[j]).Some? ==>
               out.cols[j][k].Num?)
  {
    var n := Convert(df).value;
    var m := ImputeAll(n);
    OutputColumnsDistinct();
    GetAt(m, 12);
    ConvertedInRange(df);
    ImputedInRange(n);
    var idx := Kept(m.cols[12]);
    var out := Normalized(df).value;
    forall j | 0 <= j < 13
      ensures CellsInRange(out.cols[j], j == 0)
      ensures j < 12 && Mean(n.cols[j]).Some? ==> NoMissing(out.cols[j])
    {
      assert out.cols[j] == Pick(m.cols[j], idx);
      PickInRange(m.cols[j], idx, j == 0);
    }
  }

  /** Picking rows keeps a column in its range and without missing cells. */
  lemma PickInRange(col: seq<Value>, idx: seq<nat>, percent: bool)
    requires forall k :: 0 <= k < |idx| ==> idx[k] < |col|
    requires CellsInRange(col, percent)
    ensures CellsInRange(Pick(col, idx), percent)
    ensures NoMissing(col) ==> NoMissing(Pick(col, idx))
  {
  }

  /** Every converted cell is a number in its column's range, or missing. */
  lemma ConvertedInRange(df: Frame)
    requires WellFormed(df) && Convert(df).Ok?
    ensures forall j :: 0 <= j < 13 ==> CellsInRange(Convert(df).value.cols[j], j == 0)
  {
    var n := Convert(df).value;
    forall j, i | 0 <= j < 13 && 0 <= i < n.height
      ensures CellInRange(n.cols[j][i], j == 0)
    {
      assert n.cols[j][i] == CleanCell(OutputColumns[j], Get(df, InputColumns()[j])[i]);
    }
  }

  /** The fill loop keeps every column in its range and fills every column that has a mean. */
  lemma ImputedInRange(n: Frame)
    requires WellFormed(n) && n.names == OutputColumns
    requires forall j :: 0 <= j < 13 ==> CellsInRange(n.cols[j], j == 0)
    ensures forall j :: 0 <= j < 13 ==> CellsInRange(ImputeAll(n).cols[j], j == 0)
    ensures forall j :: 0 <= j < 12 && Mean(n.cols[j]).Some? ==> NoMissing(ImputeAll(n).cols[j])
  {
    OutputColumnsDistinct();
    forall j | 0 <= j < 13
      ensures CellsInRange(ImputeAll(n).cols[j], j == 0)
      ensures j < 12 && Mean(n.cols[j]).Some? ==> NoMissing(ImputeAll(n).cols[j])
    {
      if j < 12 {
        ImputeKeepsRange(n.cols[j], j == 0);
      }
    }
  }

  predicate CellInRange(v: Value, percent: bool)
  {
    !v.Text? && (v.Num? ==> v.x >= 0.0 && (percent ==> v.x <= 100.0))
  }

  predicate CellsInRange(col: seq<Value>, percent: bool)
  {
    forall i :: 0 <= i < |col| ==> CellInRange(col[i], percent)
  }

  /** Mean imputation keeps a column inside a convex range. */
  lemma ImputeKeepsRange(col: seq<Value>, percent: bool)
    requires CellsInRange(col, percent)
    ensures CellsInRange(ImputeMean(col), percent)
    ensures Mean(col).Some? ==> NoMissing(ImputeMean(col))
  {
    ImputeMeanSpec(col);
    if Mean(col).Some? {
      MeanBounds(col, 0.0, if percent then 100.0 else 0.0, percent);
    }
  }

  /** The mean of present cells lies between their bounds. */
  lemma MeanBounds(col: seq<Value>, lo: real, hi: real, upper: bool)
    requires PresentCount(col) > 0
    requires forall i :: 0 <= i < |col| && col[i].Num? ==> lo <= col[i].x && (upper ==> col[i].x <= hi)
    ensures lo <= Mean(col).value && (upper ==> Mean(col).value <= hi)
  {
    DeviationBounds(col, lo, hi, upper);
    DeviationIs(col, lo);
    DeviationIs(col, hi);
    var s, c := PresentSum(col), PresentCount(col) as real;
    assert s - lo * c >= 0.0;
    QuotientAtLeast(s, c, lo);
    if upper {
      assert s - hi * c <= 0.0;
      QuotientAtMost(s, c, hi);
    }
  }

  lemma {:induction false} DeviationBounds(col: seq<Value>, lo: real, hi: real, upper: bool)
    requires forall i :: 0 <= i < |col| && col[i].Num? ==> lo <= col[i].x && (upper ==> col[i].x <= hi)
    ensures Deviation(col, lo) >= 0.0
    ensures upper ==> Deviation(col, hi) <= 0.0
  {
    if col != [] {
      DeviationBounds(col[1..], lo, hi, upper);
    }
  }

  lemma QuotientAtLeast(s: real, c: real, m: real)
    requires c > 0.0 && s - m * c >= 0.0
    ensures s / c >= m
  {
    var q := s / c;
    assert (q - m) * c == s - m * c;
    NonNegativeFactor(q - m, c);
  }

  lemma QuotientAtMost(s: real, c: real, m: real)
    requires c > 0.0 && s - m * c <= 0.0
    ensures s / c <= m
  {
    var q := s / c;
    assert (m - q) * c == m * c - s;
    NonNegativeFactor(m - q, c);
  }

  /** A product with a positive factor has the sign of the other factor. */
  lemma NonNegativeFactor(x: real, c: real)
    requires c > 0.0 && x * c >= 0.0
    ensures x >= 0.0
  {
  }
}
