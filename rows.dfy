/**
 * `replace_nan_with_none_in_dataframe` of easy_postgres_engine/postgres_engine.py and
 * the `where`/`dropna` filter of the root postgres_engine.py, over rows of cells.
 *
 * A DataFrame cell holds a value or one of pandas' two null markers, NaN and None;
 * `notnull` is false for both. After `where(notnull, None)` every null is None, so the
 * result is written with `Option`: `None` is Python's None.
 */
module Rows {
  import opened Results

  datatype Cell<+V> = Value(value: V) | NaN | Null

  /** `where(notnull(), None)` on one cell. */
  function NullToNone<V>(c: Cell<V>): (o: Option<V>)
    ensures o.Some? <==> c.Value?
    ensures o.Some? ==> o.value == c.value
  {
    match c
    case Value(v) => Some(v)
    case NaN => None
    case Null => None
  }

  function WhereRow<V>(row: seq<Cell<V>>): (r: seq<Option<V>>)
    ensures |r| == |row|
    ensures forall j :: 0 <= j < |row| ==> r[j] == NullToNone(row[j])
  {
    if row == [] then [] else [NullToNone(row[0])] + WhereRow(row[1..])
  }

  /** `dataframe.where(dataframe.notnull(), None)`: same shape, every null becomes None. */
  function Where<V>(rows: seq<seq<Cell<V>>>): (r: seq<seq<Option<V>>>)
    ensures |r| == |rows|
    ensures forall i :: 0 <= i < |rows| ==> r[i] == WhereRow(rows[i])
  {
    if rows == [] then [] else [WhereRow(rows[0])] + Where(rows[1..])
  }

  predicate AllNone<V>(row: seq<Option<V>>)
  {
    forall j :: 0 <= j < |row| ==> row[j].None?
  }

  /** `dropna(axis=0, how="all")`: drop every row whose cells are all null. */
  function DropAllNull<V>(rows: seq<seq<Option<V>>>): (r: seq<seq<Option<V>>>)
    ensures |r| <= |rows|
    ensures forall i :: 0 <= i < |r| ==> r[i] in rows && !AllNone(r[i])
    ensures forall i :: 0 <= i < |rows| && !AllNone(rows[i]) ==> rows[i] in r
  {
    if rows == [] then []
    else if AllNone(rows[0]) then DropAllNull(rows[1..])
    else [rows[0]] + DropAllNull(rows[1..])
  }

  /** `replace_nan_with_none_in_dataframe`. Its final `replace({np.nan: None})` finds no
      NaN left in this representation, so it adds no step here. */
  function ReplaceNanWithNone<V>(rows: seq<seq<Cell<V>>>): (r: seq<seq<Option<V>>>)
  {
    DropAllNull(Where(rows))
  }

  /** A row all of whose cells are NaN or None. */
  predicate AllNull<V>(row: seq<Cell<V>>)
  {
    forall j :: 0 <= j < |row| ==> !row[j].Value?
  }

  // ---------------------------------------------------------------------------
  // Properties.

  /** The filter works row by row, in order: dropping from a concatenation is
      concatenating what is kept of each part. */
  lemma {:induction false} DropAllNullAppend<V>(a: seq<seq<Option<V>>>, b: seq<seq<Option<V>>>)
    ensures DropAllNull(a + b) == DropAllNull(a) + DropAllNull(b)
  {
    if a != [] {
      assert (a + b)[0] == a[0];
      assert (a + b)[1..] == a[1..] + b;
      DropAllNullAppend(a[1..], b);
    } else {
      assert a + b == b;
    }
  }

  lemma {:induction false} WhereAppend<V>(a: seq<seq<Cell<V>>>, b: seq<seq<Cell<V>>>)
    ensures Where(a + b) == Where(a) + Where(b)
  {
  }

  /** One row: an all-null row disappears; any other row stays, each null becoming None. */
  lemma NormaliseOneRow<V>(row: seq<Cell<V>>)
    ensures ReplaceNanWithNone([row]) == if AllNull(row) then [] else [WhereRow(row)]
  {
    assert AllNone(WhereRow(row)) <==> AllNull(row) by {
      if AllNone(WhereRow(row)) {
        forall j | 0 <= j < |row| ensures !row[j].Value? {
          assert WhereRow(row)[j].None?;
        }
      }
    }
    assert Where([row]) == [WhereRow(row)];
    assert [WhereRow(row)][1..] == [];
  }

  /** The whole normalisation, row by row and in order: together with NormaliseOneRow this
      says the result is exactly the rows that are not all null, in their original order,
      with every null replaced by None. */
  lemma NormaliseAppend<V>(a: seq<seq<Cell<V>>>, b: seq<seq<Cell<V>>>)
    ensures ReplaceNanWithNone(a + b) == ReplaceNanWithNone(a) + ReplaceNanWithNone(b)
  {
    WhereAppend(a, b);
    DropAllNullAppend(Where(a), Where(b));
  }

  /** A row survives exactly when it had a non-null cell. */
  lemma NormaliseKeeps<V>(rows: seq<seq<Cell<V>>>, i: nat)
    requires i < |rows|
    ensures WhereRow(rows[i]) in ReplaceNanWithNone(rows) <== !AllNull(rows[i])
    ensures forall k :: 0 <= k < |ReplaceNanWithNone(rows)| ==>
              !AllNone(ReplaceNanWithNone(rows)[k]) && ReplaceNanWithNone(rows)[k] in Where(rows)
  {
    if !AllNull(rows[i]) {
      var j :| 0 <= j < |rows[i]| && rows[i][j].Value?;
      assert WhereRow(rows[i])[j].Some?;
      assert Where(rows)[i] == WhereRow(rows[i]);
    }
  }
}
