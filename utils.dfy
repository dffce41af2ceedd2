/** `build_matrix` of tf_idf/utils.py: validate a raw 2-D array and label it as a table
    (rows = samples, columns = features), optionally extended with named extra columns. */
module Utils {
  import opened Wrappers

  /** A labelled table, the model of a pandas DataFrame: row labels (`index`), column labels
      (`columns`) and the cells row by row (`values`). */
  datatype Table<R, C, V> = Table(index: seq<R>, columns: seq<C>, values: seq<seq<V>>)

  /** One row per row label, one cell per column label in every row. */
  predicate Shaped<R, C, V>(t: Table<R, C, V>) {
    && |t.values| == |t.index|
    && forall i :: 0 <= i < |t.values| ==> |t.values[i]| == |t.columns|
  }

  /** The `ValueError`s `build_matrix` raises, plus the one pandas raises when an extra
      column does not have one value per row. */
  datatype MatrixError =
    | NonPositiveFeatures   // no feature labels
    | RaggedData            // no samples, or a sample with the wrong number of features
    | InvalidExtraColumns   // no extra columns, or extra columns of different lengths
    | ExtraColumnLength     // an extra column's length differs from the number of rows

  /** The data is non-empty and every sample has exactly `count` features. */
  predicate SamplesFit<V>(data: seq<seq<V>>, count: nat) {
    |data| > 0 && forall i :: 0 <= i < |data| ==> |data[i]| == count
  }

  /** A non-empty collection of extra columns, all as long as the first. */
  predicate ExtraColumnsFit<C, V>(cols: seq<(C, seq<V>)>) {
    |cols| >= 1 && forall k :: 0 <= k < |cols| ==> |cols[k].1| == |cols[0].1|
  }

  /** `df[c] = values`: overwrite every column labelled `c`, or append a new column `c`
      when there is none. */
  function SetColumn<R, C(==), V>(t: Table<R, C, V>, c: C, vals: seq<V>): (r: Table<R, C, V>)
    requires Shaped(t) && |vals| == |t.index|
    ensures Shaped(r) && r.index == t.index
    ensures c in r.columns
    ensures c in t.columns ==>
              && r.columns == t.columns
              && forall i, j :: 0 <= i < |r.values| && 0 <= j < |r.columns| ==>
                   r.values[i][j] == if t.columns[j] == c then vals[i] else t.values[i][j]
    ensures c !in t.columns ==>
              && r.columns == t.columns + [c]
              && forall i :: 0 <= i < |r.values| ==> r.values[i] == t.values[i] + [vals[i]]
  {
    if c in t.columns then ReplaceColumn(t, c, vals) else AddColumn(t, c, vals)
  }

  function ReplaceColumn<R, C(==), V>(t: Table<R, C, V>, c: C, vals: seq<V>): (r: Table<R, C, V>)
    requires Shaped(t) && |vals| == |t.index|
    ensures Shaped(r) && r.index == t.index && r.columns == t.columns
    ensures forall i, j :: 0 <= i < |r.values| && 0 <= j < |r.columns| ==>
              r.values[i][j] == if t.columns[j] == c then vals[i] else t.values[i][j]
  {
    Table(t.index, t.columns,
          seq(|t.values|, i requires 0 <= i < |t.values| =>
            seq(|t.columns|, j requires 0 <= j < |t.columns| =>
              if t.columns[j] == c then vals[i] else t.values[i][j])))
  }

  function AddColumn<R, C, V>(t: Table<R, C, V>, c: C, vals: seq<V>): (r: Table<R, C, V>)
    requires Shaped(t) && |vals| == |t.index|
    ensures Shaped(r) && r.index == t.index && r.columns == t.columns + [c]
    ensures forall i :: 0 <= i < |r.values| ==> r.values[i] == t.values[i] + [vals[i]]
  {
    Table(t.index, t.columns + [c],
          seq(|t.values|, i requires 0 <= i < |t.values| => t.values[i] + [vals[i]]))
  }

  /** The `for` loop over the extra columns, in key order; pandas refuses a column whose
      length differs from the number of rows. */
  function AppendColumns<R, C(==), V>(t: Table<R, C, V>, cols: seq<(C, seq<V>)>): (r: Result<Table<R, C, V>, MatrixError>)
    requires Shaped(t)
    ensures r.Success? ==> Shaped(r.value) && r.value.index == t.index
    ensures r.Failure? ==> r.error == ExtraColumnLength
    decreases |cols|
  {
    if |cols| == 0 then Success(t)
    else if |cols[0].1| != |t.index| then Failure(ExtraColumnLength)
    else AppendColumns(SetColumn(t, cols[0].0, cols[0].1), cols[1..])
  }

  /** The extra column names, in key order. */
  function Keys<C, V>(cols: seq<(C, seq<V>)>): (ks: seq<C>)
    ensures |ks| == |cols| && forall k :: 0 <= k < |cols| ==> ks[k] == cols[k].0
  {
    seq(|cols|, k requires 0 <= k < |cols| => cols[k].0)
  }

  /** Row `i` of the extra columns: the `i`-th value of each, in key order. */
  function ExtraRow<C, V>(cols: seq<(C, seq<V>)>, i: nat): (row: seq<V>)
    requires forall k :: 0 <= k < |cols| ==> i < |cols[k].1|
    ensures |row| == |cols| && forall k :: 0 <= k < |cols| ==> row[k] == cols[k].1[i]
  {
    seq(|cols|, k requires 0 <= k < |cols| => cols[k].1[i])
  }

  lemma ExtraRowCons<C, V>(cols: seq<(C, seq<V>)>, i: nat)
    requires |cols| > 0
    requires forall k :: 0 <= k < |cols| ==> i < |cols[k].1|
    ensures ExtraRow(cols, i) == [cols[0].1[i]] + ExtraRow(cols[1..], i)
  {
    assert forall k :: 0 <= k < |cols| - 1 ==> cols[1..][k] == cols[k + 1];
  }

  /** One step of the loop on a fresh column name: the column is appended. */
  lemma AppendFreshStep<R, C, V>(t: Table<R, C, V>, cols: seq<(C, seq<V>)>)
    requires Shaped(t) && |cols| > 0
    requires |cols[0].1| == |t.index| && cols[0].0 !in t.columns
    ensures AppendColumns(t, cols) == AppendColumns(AddColumn(t, cols[0].0, cols[0].1), cols[1..])
  {
    assert SetColumn(t, cols[0].0, cols[0].1) == AddColumn(t, cols[0].0, cols[0].1);
  }

  /** The conditions of the fresh-column lemmas carry over from `cols` to `cols[1..]` once
      the first column is appended. */
  lemma FreshRest<R, C, V>(t: Table<R, C, V>, cols: seq<(C, seq<V>)>)
    requires Shaped(t) && |cols| > 0
    requires forall k :: 0 <= k < |cols| ==> |cols[k].1| == |t.index| && cols[k].0 !in t.columns
    requires forall k, l :: 0 <= k < l < |cols| ==> cols[k].0 != cols[l].0
    ensures Shaped(AddColumn(t, cols[0].0, cols[0].1))
    ensures forall k :: 0 <= k < |cols[1..]| ==>
              |cols[1..][k].1| == |AddColumn(t, cols[0].0, cols[0].1).index| &&
              cols[1..][k].0 !in AddColumn(t, cols[0].0, cols[0].1).columns
    ensures forall k, l :: 0 <= k < l < |cols[1..]| ==> cols[1..][k].0 != cols[1..][l].0
  {
    var rest := cols[1..];
    assert forall k :: 0 <= k < |rest| ==> rest[k] == cols[k + 1];
  }

  /** The table with the extra columns placed after the existing ones, in key order. */
  function Appended<R, C, V>(t: Table<R, C, V>, cols: seq<(C, seq<V>)>): (r: Table<R, C, V>)
    requires Shaped(t)
    requires forall k :: 0 <= k < |cols| ==> |cols[k].1| == |t.index|
    ensures Shaped(r) && r.index == t.index && r.columns == t.columns + Keys(cols)
  {
    Table(t.index, t.columns + Keys(cols),
          seq(|t.values|, i requires 0 <= i < |t.values| => t.values[i] + ExtraRow(cols, i)))
  }

  lemma ConcatAssoc<T>(a: seq<T>, b: seq<T>, c: seq<T>)
    ensures (a + b) + c == a + (b + c)
  {
  }

  /** Appending the first column, then the rest, gives the same column labels ... */
  lemma AppendedColumnsStep<R, C, V>(t: Table<R, C, V>, cols: seq<(C, seq<V>)>)
    requires Shaped(t) && |cols| > 0
    requires forall k :: 0 <= k < |cols| ==> |cols[k].1| == |t.index|
    ensures forall k :: 0 <= k < |cols| - 1 ==> |cols[1..][k].1| == |t.index|
    ensures Appended(AddColumn(t, cols[0].0, cols[0].1), cols[1..]).columns == Appended(t, cols).columns
  {
    var rest := cols[1..];
    assert Keys(cols) == [cols[0].0] + Keys(rest);
    ConcatAssoc(t.columns, [cols[0].0], Keys(rest));
  }

  /** ... and the same rows. */
  lemma AppendedRowStep<R, C, V>(t: Table<R, C, V>, cols: seq<(C, seq<V>)>, i: nat)
    requires Shaped(t) && |cols| > 0
    requires forall k :: 0 <= k < |cols| ==> |cols[k].1| == |t.index|
    requires i < |t.values|
    ensures forall k :: 0 <= k < |cols| - 1 ==> |cols[1..][k].1| == |t.index|
    ensures Appended(AddColumn(t, cols[0].0, cols[0].1), cols[1..]).values[i] == Appended(t, cols).values[i]
  {
    var t' := AddColumn(t, cols[0].0, cols[0].1);
    ExtraRowCons(cols, i);
    assert t'.values[i] == t.values[i] + [cols[0].1[i]];
    ConcatAssoc(t.values[i], [cols[0].1[i]], ExtraRow(cols[1..], i));
  }

  lemma AppendedStep<R, C, V>(t: Table<R, C, V>, cols: seq<(C, seq<V>)>)
    requires Shaped(t) && |cols| > 0
    requires forall k :: 0 <= k < |cols| ==> |cols[k].1| == |t.index|
    ensures forall k :: 0 <= k < |cols| - 1 ==> |cols[1..][k].1| == |t.index|
    ensures Appended(AddColumn(t, cols[0].0, cols[0].1), cols[1..]) == Appended(t, cols)
  {
    AppendedColumnsStep(t, cols);
    var x := Appended(AddColumn(t, cols[0].0, cols[0].1), cols[1..]);
    var y := Appended(t, cols);
    forall i | 0 <= i < |t.values|
      ensures x.values[i] == y.values[i]
    {
      AppendedRowStep(t, cols, i);
    }
    assert x.values == y.values;
  }

  /** Extra columns with fresh, distinct names and one value per row yield exactly the
      appended table. */
  lemma {:induction false} AppendFreshColumnsResult<R, C, V>(t: Table<R, C, V>, cols: seq<(C, seq<V>)>)
    requires Shaped(t)
    requires forall k :: 0 <= k < |cols| ==> |cols[k].1| == |t.index| && cols[k].0 !in t.columns
    requires forall k, l :: 0 <= k < l < |cols| ==> cols[k].0 != cols[l].0
    ensures AppendColumns(t, cols) == Success(Appended(t, cols))
    decreases |cols|
  {
    if |cols| == 0 {
      var r := Appended(t, cols);
      forall i | 0 <= i < |t.values|
        ensures r.values[i] == t.values[i]
      {
        assert ExtraRow(cols, i) == [];
        assert t.values[i] + [] == t.values[i];
      }
      assert r.values == t.values;
      assert t.columns + [] == t.columns;
      assert r == Table(t.index, t.columns, t.values) == t;
      assert AppendColumns(t, cols) == Success(t);
    } else {
      AppendFreshStep(t, cols);
      FreshRest(t, cols);
      AppendFreshColumnsResult(AddColumn(t, cols[0].0, cols[0].1), cols[1..]);
      AppendedStep(t, cols);
    }
  }

  /** Under those conditions all the extra columns are appended after the existing columns,
      in key order, and the row labels are unchanged. */
  lemma AppendFreshColumns<R, C, V>(t: Table<R, C, V>, cols: seq<(C, seq<V>)>)
    requires Shaped(t)
    requires forall k :: 0 <= k < |cols| ==> |cols[k].1| == |t.index| && cols[k].0 !in t.columns
    requires forall k, l :: 0 <= k < l < |cols| ==> cols[k].0 != cols[l].0
    ensures AppendColumns(t, cols).Success?
    ensures Shaped(AppendColumns(t, cols).value)
    ensures AppendColumns(t, cols).value.index == t.index
    ensures AppendColumns(t, cols).value.columns == t.columns + Keys(cols)
  {
    AppendFreshColumnsResult(t, cols);
  }

  /** Under the same conditions, the existing cells of every row are kept and row `i` of
      extra column `k` holds that column's `i`-th value. */
  lemma AppendFreshColumnsCells<R, C, V>(t: Table<R, C, V>, cols: seq<(C, seq<V>)>)
    requires Shaped(t)
    requires forall k :: 0 <= k < |cols| ==> |cols[k].1| == |t.index| && cols[k].0 !in t.columns
    requires forall k, l :: 0 <= k < l < |cols| ==> cols[k].0 != cols[l].0
    ensures AppendColumns(t, cols).Success?
    ensures |AppendColumns(t, cols).value.values| == |t.values|
    ensures forall i :: 0 <= i < |t.values| ==>
              AppendColumns(t, cols).value.values[i] == t.values[i] + ExtraRow(cols, i)
  {
    AppendFreshColumnsResult(t, cols);
  }

  /** The extra-column loop succeeds exactly when every extra column has one value per row,
      and then keeps the row labels and the shape. */
  lemma {:induction false} AppendColumnsSucceeds<R, C, V>(t: Table<R, C, V>, cols: seq<(C, seq<V>)>)
    requires Shaped(t)
    ensures AppendColumns(t, cols).Success? <==> forall k :: 0 <= k < |cols| ==> |cols[k].1| == |t.index|
    ensures AppendColumns(t, cols).Success? ==>
              Shaped(AppendColumns(t, cols).value) && AppendColumns(t, cols).value.index == t.index
    ensures AppendColumns(t, cols).Failure? ==> AppendColumns(t, cols).error == ExtraColumnLength
    decreases |cols|
  {
    if |cols| > 0 && |cols[0].1| == |t.index| {
      AppendColumnsSucceeds(SetColumn(t, cols[0].0, cols[0].1), cols[1..]);
      assert forall k :: 1 <= k < |cols| ==> cols[k] == cols[1..][k - 1];
    }
  }

  /** `build_matrix(data, samples_labels, features_labels, extra_cols)`. Every check runs
      before a table is returned, so a rejected input yields an error and no table. */
  method BuildMatrix<R, C(==), V>(data: seq<seq<V>>, samples: seq<R>, features: seq<C>,
                                  extraCols: Option<seq<(C, seq<V>)>>)
    returns (r: Result<Table<R, C, V>, MatrixError>)
    requires |features| > 0 && SamplesFit(data, |features|) ==> |samples| == |data|
    ensures |features| == 0 ==> r == Failure(NonPositiveFeatures)
    ensures |features| > 0 && !SamplesFit(data, |features|) ==> r == Failure(RaggedData)
    ensures |features| > 0 && SamplesFit(data, |features|) && extraCols.None? ==>
              r == Success(Table(samples, features, data))
    ensures (|features| > 0 && SamplesFit(data, |features|) && extraCols.Some? &&
             !ExtraColumnsFit(extraCols.value)) ==> r == Failure(InvalidExtraColumns)
    ensures (|features| > 0 && SamplesFit(data, |features|) && extraCols.Some? &&
             ExtraColumnsFit(extraCols.value)) ==>
              r == AppendColumns(Table(samples, features, data), extraCols.value)
    ensures r.Success? ==> Shaped(r.value) && r.value.index == samples
  {
    var featuresCount := |features|;
    if featuresCount <= 0 {
      return Failure(NonPositiveFeatures);
    }
    if |data| <= 0 || !(forall i :: 0 <= i < |data| ==> |data[i]| == featuresCount) {
      return Failure(RaggedData);
    }
    var df := Table(samples, features, data);
    if extraCols.None? {
      return Success(df);
    }
    var cols := extraCols.value;
    if |cols| < 1 || !(forall k :: 0 <= k < |cols| ==> |cols[k].1| == |cols[0].1|) {
      return Failure(InvalidExtraColumns);
    }
    var k := 0;
    while k < |cols|
      invariant 0 <= k <= |cols|
      invariant Shaped(df) && df.index == samples
      invariant AppendColumns(df, cols[k..]) == AppendColumns(Table(samples, features, data), cols)
    {
      if |cols[k].1| != |df.index| {
        return Failure(ExtraColumnLength);
      }
      assert cols[k..][1..] == cols[k + 1..];
      df := SetColumn(df, cols[k].0, cols[k].1);
      k := k + 1;
    }
    return Success(df);
  }
}
