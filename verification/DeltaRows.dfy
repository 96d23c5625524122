/** Sparse row deltas over a base table (dsv41_train/rl/engram_state.py, `validate_delta`). */
module DeltaRows {
  import opened RowIds
  import opened Wrappers

  datatype Delta<Row> = Delta(indices: seq<int>, values: seq<Row>)

  /** The checks made before any delta is used: shapes agree, the first and last index are in range, and no
      index is at most its predecessor. */
  predicate Checked<Row>(delta: Delta<Row>, count: int) {
    && |delta.values| == |delta.indices|
    && (delta.indices != [] ==> 0 <= delta.indices[0] && delta.indices[|delta.indices| - 1] < count)
    && forall k :: 0 < k < |delta.indices| ==> delta.indices[k - 1] < delta.indices[k]
  }

  predicate ValidDelta<Row>(delta: Delta<Row>, count: int) {
    |delta.values| == |delta.indices| && Ascending(delta.indices) && InRange(delta.indices, count)
  }

  lemma {:induction false} AdjacentAscend(ids: seq<int>)
    requires forall k :: 0 < k < |ids| ==> ids[k - 1] < ids[k]
    ensures Ascending(ids)
  {
    if ids != [] {
      var front := ids[..|ids| - 1];
      assert forall k :: 0 < k < |front| ==> front[k - 1] < front[k];
      AdjacentAscend(front);
      forall i, j | 0 <= i < j < |ids| ensures ids[i] < ids[j] {
        if j == |ids| - 1 && i < j - 1 {
          assert front[i] < front[j - 1];
        }
      }
    }
  }

  /** The checks are exactly what the rest relies on. */
  lemma CheckedIsValid<Row>(delta: Delta<Row>, count: int)
    ensures Checked(delta, count) <==> ValidDelta(delta, count)
  {
    if Checked(delta, count) {
      AdjacentAscend(delta.indices);
      forall k | 0 <= k < |delta.indices| ensures 0 <= delta.indices[k] < count {
        AscendingBounds(delta.indices, k);
      }
    }
  }

  /** The delta's row for id i, if it has one. */
  function RowAt<Row>(delta: Delta<Row>, i: int): Option<Row>
    requires |delta.values| == |delta.indices|
  {
    if i in delta.indices then Some(delta.values[IndexOf(delta.indices, i)]) else None
  }

  function Or<Row>(row: Option<Row>, other: Row): Row {
    match row
    case Some(found) => found
    case None => other
  }

  /** The table with the delta's rows in place of its own. */
  function Overlay<Row>(rows: seq<Row>, delta: Delta<Row>): (r: seq<Row>)
    requires |delta.values| == |delta.indices|
    ensures |r| == |rows| && forall i :: 0 <= i < |rows| ==> r[i] == Or(RowAt(delta, i), rows[i])
  {
    seq(|rows|, i requires 0 <= i < |rows| => Or(RowAt(delta, i), rows[i]))
  }

  function Snapshot<Row>(rows: seq<Row>, ids: seq<int>): Delta<Row>
    requires InRange(ids, |rows|)
  {
    Delta(ids, Lookup(rows, ids))
  }

  /** A snapshot of the overlaid rows is the delta again. */
  lemma SnapshotOfOverlay<Row>(base: seq<Row>, delta: Delta<Row>)
    requires ValidDelta(delta, |base|)
    ensures Snapshot(Overlay(base, delta), delta.indices) == delta
  {
    forall k | 0 <= k < |delta.indices| ensures Overlay(base, delta)[delta.indices[k]] == delta.values[k] {
      IndexOfIs(delta.indices, k);
    }
  }

  /** The ids outside which a table equals its base say everything about the table. */
  lemma SnapshotIsComplete<Row>(base: seq<Row>, rows: seq<Row>, dirty: seq<int>)
    requires |rows| == |base| && Ascending(dirty) && InRange(dirty, |base|)
    requires forall i :: 0 <= i < |base| && i !in dirty ==> rows[i] == base[i]
    ensures ValidDelta(Snapshot(rows, dirty), |base|) && Overlay(base, Snapshot(rows, dirty)) == rows
  {
  }

  /** `index_copy_`: write rows one after the other. */
  method IndexCopy<Row>(table: array<Row>, ids: seq<int>, values: seq<Row>)
    requires |values| == |ids| && Ascending(ids) && InRange(ids, table.Length)
    modifies table
    ensures table[..] == Overlay(old(table[..]), Delta(ids, values))
  {
    for k := 0 to |ids|
      invariant forall i :: 0 <= i < table.Length && i !in ids[..k] ==> table[i] == old(table[i])
      invariant forall j :: 0 <= j < k ==> table[ids[j]] == values[j]
    {
      table[ids[k]] := values[k];
    }
    assert ids[..|ids|] == ids;
  }
}
