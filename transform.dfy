/**
 * The result transformer of the remote driver: a columnar result set (column
 * names plus positional rows) becomes one record per row, keyed by column name.
 */
module Transform {
  import opened Wrappers

  /** A row after transformation. A key whose position lies past the end of the
      raw row holds `None`, JavaScript's `undefined`. */
  type Row<V> = map<string, Option<V>>

  /** The result set as the server sends it; `meta` stands for every other field. */
  datatype RawResultSet<V, M> = RawResultSet(columns: seq<string>, rows: seq<seq<V>>, meta: M)

  /** The result set after transformation: same fields, rows replaced by records. */
  datatype ResultSet<V, M> = ResultSet(columns: seq<string>, rows: seq<Row<V>>, meta: M)

  /** Reading `r[idx]` of a JavaScript array: `undefined` past the end. */
  function At<V>(r: seq<V>, idx: nat): (v: Option<V>)
    ensures v.Some? <==> idx < |r|
    ensures v.Some? ==> v.value == r[idx]
  {
    if idx < |r| then Some(r[idx]) else None
  }

  /** The `reduce` over the columns from position `idx` on, with accumulator `a`:
      each step performs `a[columns[idx]] = r[idx]`. */
  function FoldColumns<V>(columns: seq<string>, r: seq<V>, a: Row<V>, idx: nat): (out: Row<V>)
    requires idx <= |columns|
    ensures out.Keys == a.Keys + (set j | idx <= j < |columns| :: columns[j])
    decreases |columns| - idx
  {
    if idx == |columns| then a
    else
      var later := set j | idx + 1 <= j < |columns| :: columns[j];
      assert (set j | idx <= j < |columns| :: columns[j]) == {columns[idx]} + later by {
        forall c | c in (set j | idx <= j < |columns| :: columns[j]) ensures c in {columns[idx]} + later {
          var j :| idx <= j < |columns| && columns[j] == c;
          if j > idx { assert c in later; }
        }
      }
      FoldColumns(columns, r, a[columns[idx] := At(r, idx)], idx + 1)
  }

  /** The record built for one raw row: the fold started from the empty object.
      Its keys are exactly the column names: no extras, no omissions. */
  function RowOf<V>(columns: seq<string>, r: seq<V>): (out: Row<V>)
    ensures out.Keys == set c | c in columns
  {
    var byIndex := set j | 0 <= j < |columns| :: columns[j];
    assert byIndex == set c | c in columns by {
      forall c | c in columns ensures c in byIndex {
        var j :| 0 <= j < |columns| && columns[j] == c;
      }
    }
    FoldColumns(columns, r, map[], 0)
  }

  /** The last position at which column name `c` occurs. */
  function LastIndexOf(columns: seq<string>, c: string): (i: nat)
    requires c in columns
    ensures i < |columns| && columns[i] == c
    ensures forall j :: i < j < |columns| ==> columns[j] != c
  {
    if columns[|columns| - 1] == c then |columns| - 1
    else LastIndexOf(columns[..|columns| - 1], c)
  }

  /** An independent description of the record: one key per column name, holding
      the value at the last position of that name. */
  function ReferenceRow<V>(columns: seq<string>, r: seq<V>): (out: Row<V>)
    ensures out.Keys == set c | c in columns
    ensures forall k :: 0 <= k < |columns| && (forall j :: k < j < |columns| ==> columns[j] != columns[k]) ==>
      out[columns[k]] == At(r, k)
  {
    map c | c in columns :: At(r, LastIndexOf(columns, c))
  }

  /** Every raw row mapped to its record, in order (`raw.rows.map(...)`). */
  function MapRows<V>(columns: seq<string>, rows: seq<seq<V>>): (out: seq<Row<V>>)
    ensures |out| == |rows|
  {
    if rows == [] then []
    else MapRows(columns, rows[..|rows| - 1]) + [RowOf(columns, rows[|rows| - 1])]
  }

  /** `transformRawResult` as a value: `{...raw, rows: ...}`. */
  function Transformed<V, M>(raw: RawResultSet<V, M>): (res: ResultSet<V, M>)
    ensures res.columns == raw.columns && res.meta == raw.meta
    ensures |res.rows| == |raw.rows|
  {
    ResultSet(raw.columns, MapRows(raw.columns, raw.rows), raw.meta)
  }

  /** `data.map(transformRawResult)` for a batch of result sets. */
  function TransformAll<V, M>(sets: seq<RawResultSet<V, M>>): (out: seq<ResultSet<V, M>>)
    ensures |out| == |sets|
  {
    if sets == [] then []
    else TransformAll(sets[..|sets| - 1]) + [Transformed(sets[|sets| - 1])]
  }

  // ---------------------------------------------------------------------------
  // The loops of transformRawResult

  /** The `reduce` over the columns, one key at a time into a fresh accumulator. */
  method TransformRow<V>(columns: seq<string>, r: seq<V>) returns (a: Row<V>)
    ensures a == RowOf(columns, r)
  {
    a := map[];
    var idx := 0;
    while idx < |columns|
      invariant idx <= |columns|
      invariant FoldColumns(columns, r, a, idx) == RowOf(columns, r)
    {
      a := a[columns[idx] := At(r, idx)];
      idx := idx + 1;
    }
  }

  /** `transformRawResult`: the rows are mapped one by one, everything else is copied. */
  method TransformRawResult<V, M>(raw: RawResultSet<V, M>) returns (res: ResultSet<V, M>)
    ensures res == Transformed(raw)
  {
    var rows: seq<Row<V>> := [];
    var k := 0;
    while k < |raw.rows|
      invariant k <= |raw.rows|
      invariant rows == MapRows(raw.columns, raw.rows[..k])
    {
      var o := TransformRow(raw.columns, raw.rows[k]);
      assert raw.rows[..k + 1][..k] == raw.rows[..k];
      rows := rows + [o];
      k := k + 1;
    }
    assert raw.rows[..k] == raw.rows;
    res := ResultSet(raw.columns, rows, raw.meta);
  }

  // ---------------------------------------------------------------------------
  // Properties of the fold

  /** A key that no column from `idx` on names keeps its accumulator entry. */
  lemma {:induction false} FoldUntouched<V>(columns: seq<string>, r: seq<V>, a: Row<V>, idx: nat, c: string)
    requires idx <= |columns|
    requires forall j :: idx <= j < |columns| ==> columns[j] != c
    ensures c in FoldColumns(columns, r, a, idx) <==> c in a
    ensures c in a ==> FoldColumns(columns, r, a, idx)[c] == a[c]
    decreases |columns| - idx
  {
    if idx < |columns| {
      FoldUntouched(columns, r, a[columns[idx] := At(r, idx)], idx + 1, c);
    }
  }

  /** The last write of a key is the one that survives the fold. */
  lemma {:induction false} FoldLast<V>(columns: seq<string>, r: seq<V>, a: Row<V>, idx: nat, k: nat)
    requires idx <= k < |columns|
    requires forall j :: k < j < |columns| ==> columns[j] != columns[k]
    ensures columns[k] in FoldColumns(columns, r, a, idx)
    ensures FoldColumns(columns, r, a, idx)[columns[k]] == At(r, k)
    decreases k - idx
  {
    var next := a[columns[idx] := At(r, idx)];
    if idx == k {
      FoldUntouched(columns, r, next, idx + 1, columns[k]);
    } else {
      FoldLast(columns, r, next, idx + 1, k);
    }
  }

  /** The fold reads the row only at the column positions. */
  lemma {:induction false} FoldAgree<V>(columns: seq<string>, r: seq<V>, r': seq<V>, a: Row<V>, idx: nat)
    requires idx <= |columns|
    requires forall j :: idx <= j < |columns| ==> At(r, j) == At(r', j)
    ensures FoldColumns(columns, r, a, idx) == FoldColumns(columns, r', a, idx)
    decreases |columns| - idx
  {
    if idx < |columns| {
      FoldAgree(columns, r, r', a[columns[idx] := At(r, idx)], idx + 1);
    }
  }

  // ---------------------------------------------------------------------------
  // Properties of one transformed row

  /** A column's value is the raw value at the last position carrying its name;
      earlier duplicates are overwritten. */
  lemma RowOfLastWins<V>(columns: seq<string>, r: seq<V>, k: nat)
    requires k < |columns|
    requires forall j :: k < j < |columns| ==> columns[j] != columns[k]
    ensures columns[k] in RowOf(columns, r)
    ensures RowOf(columns, r)[columns[k]] == At(r, k)
  {
    FoldLast(columns, r, map[], 0, k);
  }

  /** With distinct column names and a row at least as long as the columns,
      every column maps to the raw value at its own position. */
  lemma RowOfDistinct<V>(columns: seq<string>, r: seq<V>)
    requires forall i, j :: 0 <= i < j < |columns| ==> columns[i] != columns[j]
    requires |columns| <= |r|
    ensures forall i :: 0 <= i < |columns| ==>
      columns[i] in RowOf(columns, r) && RowOf(columns, r)[columns[i]] == Some(r[i])
  {
    forall i | 0 <= i < |columns|
      ensures columns[i] in RowOf(columns, r) && RowOf(columns, r)[columns[i]] == Some(r[i])
    {
      RowOfLastWins(columns, r, i);
    }
  }

  /** A column at a position past the end of a short row is still a key, holding
      `undefined`: whichever position of that name wins lies past the end too. */
  lemma RowOfMissing<V>(columns: seq<string>, r: seq<V>, k: nat)
    requires |r| <= k < |columns|
    ensures columns[k] in RowOf(columns, r) && RowOf(columns, r)[columns[k]] == None
  {
    RowOfLastWins(columns, r, LastIndexOf(columns, columns[k]));
  }

  /** Raw values beyond the last column are dropped. */
  lemma RowOfDropsExtra<V>(columns: seq<string>, r: seq<V>)
    requires |columns| <= |r|
    ensures RowOf(columns, r) == RowOf(columns, r[..|columns|])
  {
    FoldAgree(columns, r, r[..|columns|], map[], 0);
  }

  /** The fold agrees with the reference description of the record. */
  lemma RowOfMatchesReference<V>(columns: seq<string>, r: seq<V>)
    ensures RowOf(columns, r) == ReferenceRow(columns, r)
  {
    forall c | c in columns
      ensures RowOf(columns, r)[c] == ReferenceRow(columns, r)[c]
    {
      RowOfLastWins(columns, r, LastIndexOf(columns, c));
    }
  }

  // ---------------------------------------------------------------------------
  // Properties of the whole result set

  /** Output row `k` is built from input row `k`. */
  lemma {:induction false} MapRowsAt<V>(columns: seq<string>, rows: seq<seq<V>>, k: nat)
    requires k < |rows|
    ensures MapRows(columns, rows)[k] == RowOf(columns, rows[k])
  {
    if k < |rows| - 1 {
      MapRowsAt(columns, rows[..|rows| - 1], k);
    }
  }

  /** Columns and every other field are copied; rows keep their number and order. */
  lemma TransformedShape<V, M>(raw: RawResultSet<V, M>)
    ensures Transformed(raw).columns == raw.columns
    ensures Transformed(raw).meta == raw.meta
    ensures |Transformed(raw).rows| == |raw.rows|
    ensures forall k :: 0 <= k < |raw.rows| ==> Transformed(raw).rows[k] == RowOf(raw.columns, raw.rows[k])
  {
    forall k | 0 <= k < |raw.rows|
      ensures Transformed(raw).rows[k] == RowOf(raw.columns, raw.rows[k])
    {
      MapRowsAt(raw.columns, raw.rows, k);
    }
  }

  /** Every transformed row is keyed by exactly the column names. */
  lemma TransformedKeys<V, M>(raw: RawResultSet<V, M>)
    ensures forall k :: 0 <= k < |Transformed(raw).rows| ==>
      Transformed(raw).rows[k].Keys == set c | c in raw.columns
  {
    TransformedShape(raw);
  }

  /** Element `k` of a transformed batch is the transform of input element `k`. */
  lemma {:induction false} TransformAllAt<V, M>(sets: seq<RawResultSet<V, M>>, k: nat)
    requires k < |sets|
    ensures TransformAll(sets)[k] == Transformed(sets[k])
  {
    if k < |sets| - 1 {
      TransformAllAt(sets[..|sets| - 1], k);
    }
  }
}
