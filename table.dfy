/*
 * A column-major model of the pandas data frames the scripts pass around:
 * named columns of equal height, column lookup and assignment (`df[c]`,
 * `df[c] = col`), per-column mean imputation (`fillna(mean())`), dropping
 * the rows whose label is missing (`dropna(subset=[...])`), selecting
 * columns (`df[cols]`) and row-wise concatenation (`pd.concat`).
 */
module Table {
  import opened Schema

  datatype Frame = Frame(height: nat, names: seq<Column>, cols: seq<seq<Value>>)

  /** One column per name, every column as high as the frame. */
  predicate WellFormed(f: Frame)
  {
    |f.names| == |f.cols| && forall i :: 0 <= i < |f.cols| ==> |f.cols[i]| == f.height
  }

  /** Position of the first column called `c`. */
  function IndexOf(names: seq<Column>, c: Column): (i: nat)
    requires c in names
    ensures i < |names| && names[i] == c && c !in names[..i]
  {
    if names[0] == c then 0 else 1 + IndexOf(names[1..], c)
  }

  lemma {:induction false} IndexOfUnique(names: seq<Column>, c: Column, i: nat)
    requires i < |names| && names[i] == c && c !in names[..i]
    ensures IndexOf(names, c) == i
  {
    if i > 0 {
      assert names[..i][0] == names[0];
      assert names[1..][..i - 1] == names[1..i];
      assert names[1..i] == names[..i][1..];
      IndexOfUnique(names[1..], c, i - 1);
    }
  }

  /** `df[c]` for a column that exists. */
  function Get(f: Frame, c: Column): (col: seq<Value>)
    requires WellFormed(f) && c in f.names
    ensures |col| == f.height
  {
    f.cols[IndexOf(f.names, c)]
  }

  /** `df[c] = col`: replaces the column in place, or appends it as the last column. */
  function Set(f: Frame, c: Column, col: seq<Value>): (r: Frame)
    requires WellFormed(f) && |col| == f.height
    ensures WellFormed(r) && r.height == f.height
    ensures r.names == if c in f.names then f.names else f.names + [c]
    ensures Get(r, c) == col
    ensures forall d :: d in f.names && d != c ==> Get(r, d) == Get(f, d)
  {
    if c in f.names then
      Frame(f.height, f.names, f.cols[IndexOf(f.names, c) := col])
    else
      var r := Frame(f.height, f.names + [c], f.cols + [col]);
      assert r.names[|f.names|] == c && c !in r.names[..|f.names|] by {
        assert r.names[..|f.names|] == f.names;
      }
      IndexOfUnique(r.names, c, |f.names|);
      forall d | d in f.names && d != c
        ensures Get(r, d) == Get(f, d)
      {
        var i := IndexOf(f.names, d);
        assert r.names[..i] == f.names[..i];
        IndexOfUnique(r.names, d, i);
      }
      r
  }

  /** No column name occurs twice (pandas frames built by assignment). */
  predicate Distinct(names: seq<Column>)
  {
    forall i, j :: 0 <= i < j < |names| ==> names[i] != names[j]
  }

  /** With distinct names, `df[c]` is the column at `c`'s position... */
  lemma GetAt(f: Frame, j: nat)
    requires WellFormed(f) && Distinct(f.names) && j < |f.names|
    ensures Get(f, f.names[j]) == f.cols[j]
  {
    IndexOfUnique(f.names, f.names[j], j);
  }

  /** ...and `df[c] = col` replaces exactly that position. */
  lemma SetAt(f: Frame, j: nat, col: seq<Value>)
    requires WellFormed(f) && Distinct(f.names) && j < |f.names| && |col| == f.height
    ensures Set(f, f.names[j], col) == f.(cols := f.cols[j := col])
  {
    IndexOfUnique(f.names, f.names[j], j);
  }

  /** No cell of the column holds text: pandas can take its mean. */
  predicate NumericColumn(col: seq<Value>)
  {
    forall i :: 0 <= i < |col| ==> !col[i].Text?
  }

  predicate NoMissing(col: seq<Value>)
  {
    forall i :: 0 <= i < |col| ==> col[i] != Missing
  }

  function PresentSum(col: seq<Value>): real
  {
    if col == [] then 0.0
    else (if col[0].Num? then col[0].x else 0.0) + PresentSum(col[1..])
  }

  function PresentCount(col: seq<Value>): nat
  {
    if col == [] then 0 else (if col[0].Num? then 1 else 0) + PresentCount(col[1..])
  }

  function MissingCount(col: seq<Value>): nat
  {
    if col == [] then 0 else (if col[0].Missing? then 1 else 0) + MissingCount(col[1..])
  }

  /** `Series.mean()`: the average of the present cells, NaN (None) when there are none. */
  function Mean(col: seq<Value>): Option<real>
  {
    if PresentCount(col) == 0 then None else Some(PresentSum(col) / PresentCount(col) as real)
  }

  /** `Series.fillna(m)`: a NaN fill value leaves the column as it is. */
  function FillMissing(col: seq<Value>, m: Option<real>): (r: seq<Value>)
    ensures |r| == |col|
  {
    seq(|col|, i requires 0 <= i < |col| =>
      if col[i].Missing? && m.Some? then Num(m.value) else col[i])
  }

  /** `col.fillna(col.mean())`, the imputation every script applies to a feature column. */
  function ImputeMean(col: seq<Value>): (r: seq<Value>)
    ensures |r| == |col|
  {
    FillMissing(col, Mean(col))
  }

  lemma {:induction false} PresentCountBound(col: seq<Value>)
    ensures PresentCount(col) + MissingCount(col) <= |col|
    ensures NumericColumn(col) ==> PresentCount(col) + MissingCount(col) == |col|
    ensures PresentCount(col) == 0 && NumericColumn(col) ==> MissingCount(col) == |col|
    ensures PresentCount(col) > 0 <==> exists i :: 0 <= i < |col| && col[i].Num?
  {
    if col != [] {
      PresentCountBound(col[1..]);
      assert forall i :: 0 < i < |col| ==> col[i] == col[1..][i - 1];
      assert forall i :: 0 <= i < |col| - 1 ==> col[1..][i] == col[i + 1];
    }
  }

  /** The sum of the present cells' deviations from `m`. */
  function Deviation(col: seq<Value>, m: real): real
  {
    if col == [] then 0.0
    else (if col[0].Num? then col[0].x - m else 0.0) + Deviation(col[1..], m)
  }

  lemma {:induction false} DeviationIs(col: seq<Value>, m: real)
    ensures Deviation(col, m) == PresentSum(col) - m * PresentCount(col) as real
  {
    if col != [] {
      DeviationIs(col[1..], m);
    }
  }

  /** Filling missing cells with `m` adds cells of zero deviation and one present cell per missing cell. */
  lemma {:induction false} FillKeepsDeviation(col: seq<Value>, m: real)
    ensures Deviation(FillMissing(col, Some(m)), m) == Deviation(col, m)
    ensures PresentCount(FillMissing(col, Some(m))) == PresentCount(col) + MissingCount(col)
  {
    if col != [] {
      FillKeepsDeviation(col[1..], m);
      assert FillMissing(col, Some(m))[1..] == FillMissing(col[1..], Some(m));
    }
  }

  /**
   * Imputing a numeric column with its own mean keeps every present cell,
   * puts the mean into every missing cell, leaves no cell missing when at
   * least one was present, and does not change the column's mean.
   */
  lemma ImputeMeanSpec(col: seq<Value>)
    requires NumericColumn(col)
    ensures forall i :: 0 <= i < |col| && col[i] != Missing ==> ImputeMean(col)[i] == col[i]
    ensures forall i :: 0 <= i < |col| && col[i] == Missing && Mean(col).Some? ==>
              ImputeMean(col)[i] == Num(Mean(col).value)
    ensures Mean(col).None? ==> ImputeMean(col) == col
    ensures Mean(col).Some? ==> NoMissing(ImputeMean(col))
    ensures Mean(ImputeMean(col)) == Mean(col)
  {
    PresentCountBound(col);
    if Mean(col).Some? {
      FilledMean(col, Mean(col).value);
    }
  }

  lemma FilledMean(col: seq<Value>, m: real)
    requires Mean(col) == Some(m)
    ensures Mean(FillMissing(col, Some(m))) == Some(m)
  {
    MeanZeroDeviation(col, m);
    FillKeepsDeviation(col, m);
    MeanZeroDeviation(FillMissing(col, Some(m)), m);
  }

  /** A column with present cells has mean `m` exactly when its deviations from `m` cancel out. */
  lemma MeanZeroDeviation(col: seq<Value>, m: real)
    requires PresentCount(col) > 0
    ensures Mean(col) == Some(m) <==> Deviation(col, m) == 0.0
  {
    DeviationIs(col, m);
    QuotientIs(PresentSum(col), PresentCount(col) as real, m);
  }

  lemma QuotientIs(s: real, c: real, m: real)
    requires c > 0.0
    ensures s / c == m <==> s - m * c == 0.0
  {
    if s / c == m {
      assert s == (s / c) * c;
    }
  }

  /** Indices of the rows whose cell in `keyCol` is not missing, ascending. */
  function Kept(keyCol: seq<Value>): (idx: seq<nat>)
    ensures forall k :: 0 <= k < |idx| ==> idx[k] < |keyCol|
  {
    if keyCol == [] then []
    else
      var n := |keyCol| - 1;
      Kept(keyCol[..n]) + (if keyCol[n] != Missing then [n] else [])
  }

  /** The kept indices are exactly the labelled rows, in their original order. */
  lemma {:induction false} KeptSpec(keyCol: seq<Value>)
    ensures forall k, l :: 0 <= k < l < |Kept(keyCol)| ==> Kept(keyCol)[k] < Kept(keyCol)[l]
    ensures forall i :: 0 <= i < |keyCol| ==> (i in Kept(keyCol) <==> keyCol[i] != Missing)
    ensures |Kept(keyCol)| == |keyCol| - MissingCount(keyCol)
  {
    KeptSorted(keyCol);
    KeptMembers(keyCol);
    KeptCount(keyCol);
  }

  lemma {:induction false} KeptSorted(keyCol: seq<Value>)
    ensures forall k, l :: 0 <= k < l < |Kept(keyCol)| ==> Kept(keyCol)[k] < Kept(keyCol)[l]
  {
    if keyCol != [] {
      KeptSorted(keyCol[..|keyCol| - 1]);
    }
  }

  lemma {:induction false} KeptMembers(keyCol: seq<Value>)
    ensures forall i :: 0 <= i < |keyCol| ==> (i in Kept(keyCol) <==> keyCol[i] != Missing)
  {
    if keyCol != [] {
      var n := |keyCol| - 1;
      KeptMembers(keyCol[..n]);
      assert forall i :: 0 <= i < n ==> keyCol[..n][i] == keyCol[i];
    }
  }

  lemma {:induction false} KeptCount(keyCol: seq<Value>)
    ensures |Kept(keyCol)| == |keyCol| - MissingCount(keyCol)
  {
    if keyCol != [] {
      var n := |keyCol| - 1;
      KeptCount(keyCol[..n]);
      MissingCountSnoc(keyCol[..n], keyCol[n]);
      assert keyCol[..n] + [keyCol[n]] == keyCol;
    }
  }

  lemma {:induction false} MissingCountSnoc(s: seq<Value>, v: Value)
    ensures MissingCount(s + [v]) == MissingCount(s) + (if v.Missing? then 1 else 0)
  {
    if s != [] {
      MissingCountSnoc(s[1..], v);
      assert (s + [v])[1..] == s[1..] + [v];
    }
  }

  function Pick(col: seq<Value>, idx: seq<nat>): (r: seq<Value>)
    requires forall k :: 0 <= k < |idx| ==> idx[k] < |col|
    ensures |r| == |idx|
  {
    seq(|idx|, k requires 0 <= k < |idx| => col[idx[k]])
  }

  /** `df.dropna(subset=[c])`: keeps the rows whose cell in column `c` is present. */
  function DropMissing(f: Frame, c: Column): (r: Frame)
    requires WellFormed(f) && c in f.names
    ensures WellFormed(r) && r.names == f.names
  {
    var idx := Kept(Get(f, c));
    Frame(|idx|, f.names, seq(|f.cols|, j requires 0 <= j < |f.cols| => Pick(f.cols[j], idx)))
  }

  /** The first of `cs` that the frame lacks, if any. */
  function FirstAbsent(names: seq<Column>, cs: seq<Column>): (r: Option<Column>)
    ensures r.None? <==> forall c :: c in cs ==> c in names
    ensures r.Some? ==> r.value in cs && r.value !in names
  {
    if cs == [] then None
    else if cs[0] !in names then Some(cs[0])
    else FirstAbsent(names, cs[1..])
  }

  /** `df[cs]`: the named columns in the requested order, KeyError if one is absent. */
  function Select(f: Frame, cs: seq<Column>): (r: Result<Frame>)
    requires WellFormed(f)
    ensures r.Ok? <==> forall c :: c in cs ==> c in f.names
    ensures r.Err? ==> r.error.KeyNotFound? && r.error.key in cs && r.error.key !in f.names
    ensures r.Ok? ==> WellFormed(r.value) && r.value.names == cs && r.value.height == f.height
    ensures r.Ok? ==> forall j :: 0 <= j < |cs| ==> r.value.cols[j] == Get(f, cs[j])
  {
    match FirstAbsent(f.names, cs)
    case Some(c) => Err(KeyNotFound(c))
    case None =>
      Ok(Frame(f.height, cs, seq(|cs|, j requires 0 <= j < |cs| => Get(f, cs[j]))))
  }

  /** Selected columns read like the frame's own: `df[cs][c] == df[c]`. */
  lemma SelectGet(f: Frame, cs: seq<Column>, c: Column)
    requires WellFormed(f) && Select(f, cs).Ok? && c in cs
    ensures c in f.names && Get(Select(f, cs).value, c) == Get(f, c)
  {
  }

  function Missings(n: nat): (r: seq<Value>)
    ensures |r| == n && forall i :: 0 <= i < n ==> r[i] == Missing
  {
    seq(n, _ => Missing)
  }

  /** The names of `b` that `a` lacks, in `b`'s order. */
  function NewNames(a: seq<Column>, b: seq<Column>): (r: seq<Column>)
    ensures forall c :: c in r <==> c in b && c !in a
  {
    if b == [] then []
    else (if b[0] !in a then [b[0]] else []) + NewNames(a, b[1..])
  }

  /** A column of `f`, or an all-missing column when `f` lacks it (pandas' alignment). */
  function ColumnOrMissing(f: Frame, c: Column): (r: seq<Value>)
    requires WellFormed(f)
    ensures |r| == f.height
  {
    if c in f.names then Get(f, c) else Missings(f.height)
  }

  /**
   * `pd.concat([a, b], ignore_index=True)`: the rows of `a` followed by the
   * rows of `b`, over the union of their columns (first `a`'s, then the
   * ones only `b` has); a cell of a column the frame lacks is missing.
   */
  function Concat(a: Frame, b: Frame): (r: Frame)
    requires WellFormed(a) && WellFormed(b)
    ensures WellFormed(r) && r.height == a.height + b.height
    ensures r.names == a.names + NewNames(a.names, b.names)
  {
    var names := a.names + NewNames(a.names, b.names);
    Frame(a.height + b.height, names,
          seq(|names|, j requires 0 <= j < |names| =>
            ColumnOrMissing(a, names[j]) + ColumnOrMissing(b, names[j])))
  }

  /** Every column of the concatenation starts with `a`'s rows and ends with `b`'s. */
  lemma ConcatSpec(a: Frame, b: Frame, c: Column)
    requires WellFormed(a) && WellFormed(b) && (c in a.names || c in b.names)
    ensures c in Concat(a, b).names
    ensures Get(Concat(a, b), c)[..a.height] == ColumnOrMissing(a, c)
    ensures Get(Concat(a, b), c)[a.height..] == ColumnOrMissing(b, c)
  {
    var r := Concat(a, b);
    assert c in r.names;
    var j := IndexOf(r.names, c);
    assert r.cols[j] == ColumnOrMissing(a, c) + ColumnOrMissing(b, c);
  }

  /** The row at `i` as a dict from column to cell (`df.iloc[i]`). */
  function RowAt(f: Frame, i: nat): (row: map<Column, Value>)
    requires WellFormed(f) && i < f.height
    ensures forall c :: c in row <==> c in f.names
    ensures forall c :: c in row ==> row[c] == Get(f, c)[i]
  {
    map c | c in f.names :: Get(f, c)[i]
  }

  /**
   * `pd.DataFrame(rows)` for a list of dicts that share the key order
   * `order`: no columns at all for an empty list, otherwise one column per
   * key with the dict's value, or a missing cell where the dict lacks it.
   */
  function FrameOfRows(rows: seq<map<Column, Value>>, order: seq<Column>): (r: Frame)
    ensures WellFormed(r) && r.height == |rows|
    ensures rows != [] ==> r.names == order
  {
    if rows == [] then Frame(0, [], [])
    else
      Frame(|rows|, order,
            seq(|order|, j requires 0 <= j < |order| =>
              seq(|rows|, i requires 0 <= i < |rows| =>
                if order[j] in rows[i] then rows[i][order[j]] else Missing)))
  }

  /** A cell of `pd.DataFrame(rows)`: the row's value for that key, or missing where the row lacks it. */
  lemma FrameOfRowsAt(rows: seq<map<Column, Value>>, order: seq<Column>, i: nat, c: Column)
    requires i < |rows| && c in order
    ensures c in FrameOfRows(rows, order).names
    ensures Get(FrameOfRows(rows, order), c)[i] == if c in rows[i] then rows[i][c] else Missing
  {
    var j := IndexOf(order, c);
  }

  /** A cell of the concatenation below `a`'s rows is the matching cell of `b`. */
  lemma ConcatAt(a: Frame, b: Frame, i: nat, c: Column)
    requires WellFormed(a) && WellFormed(b) && i < b.height
    ensures ColumnOrMissing(Concat(a, b), c)[a.height + i] == ColumnOrMissing(b, c)[i]
  {
    if c in a.names || c in b.names {
      ConcatSpec(a, b, c);
      assert Get(Concat(a, b), c)[a.height..][i] == ColumnOrMissing(b, c)[i];
    }
  }

  /** Nothing is new when every name of `b` is already in `a`. */
  lemma NoNewNames(a: seq<Column>, b: seq<Column>)
    requires forall c :: c in b ==> c in a
    ensures NewNames(a, b) == []
  {
    if NewNames(a, b) != [] {
      assert NewNames(a, b)[0] in NewNames(a, b);
    }
  }

  /** Indices of the rows whose cell equals `v`, ascending (the mask `df[c] == v`). */
  function Matching(col: seq<Value>, v: Value): (idx: seq<nat>)
    ensures forall k :: 0 <= k < |idx| ==> idx[k] < |col| && col[idx[k]] == v
  {
    if col == [] then []
    else
      var n := |col| - 1;
      Matching(col[..n], v) + (if col[n] == v then [n] else [])
  }

  /** The mask keeps exactly the rows holding `v`, in their original order. */
  lemma {:induction false} MatchingSpec(col: seq<Value>, v: Value)
    ensures forall k, l :: 0 <= k < l < |Matching(col, v)| ==> Matching(col, v)[k] < Matching(col, v)[l]
    ensures forall i :: 0 <= i < |col| ==> (i in Matching(col, v) <==> col[i] == v)
  {
    if col != [] {
      var n := |col| - 1;
      MatchingSpec(col[..n], v);
    }
  }

  /** `df[mask]`: the rows at the given indices, every column kept. */
  function Rows(f: Frame, idx: seq<nat>): (r: Frame)
    requires WellFormed(f) && forall k :: 0 <= k < |idx| ==> idx[k] < f.height
    ensures WellFormed(r) && r.names == f.names && r.height == |idx|
  {
    Frame(|idx|, f.names, seq(|f.cols|, j requires 0 <= j < |f.cols| => Pick(f.cols[j], idx)))
  }
}
