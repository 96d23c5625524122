/** Cumulative Engram row snapshots with rollback over an immutable base (dsv41_train/sft_engram.py,
    dsv41_train/rl/engram_state.py).

    An owner holds rows rowStart.. of a released table. Sparse steps change any
    rows they name and mark them dirty; a load rolls dirty rows back by rereading
    the base, then installs a payload. A base read may fail at any chunk. */
module EngramRollback {
  import opened DeltaRows
  import opened RowIds
  import opened Wrappers

  // ----- searching and splitting sorted ids

  /** `torch.searchsorted`: the first place whose id is not below x. */
  method SearchSorted(ids: seq<int>, x: int) returns (place: nat)
    requires Ascending(ids)
    ensures place <= |ids|
    ensures forall k :: 0 <= k < place ==> ids[k] < x
    ensures forall k :: place <= k < |ids| ==> x <= ids[k]
  {
    place := 0;
    while place < |ids| && ids[place] < x
      invariant place <= |ids| && forall k :: 0 <= k < place ==> ids[k] < x
    {
      place := place + 1;
    }
  }

  function Omitted(dirty: seq<int>, incoming: seq<int>): (omitted: seq<int>)
    ensures forall x :: x in omitted <==> x in dirty && x !in incoming
  {
    if dirty == [] then []
    else
      var front, last := dirty[..|dirty| - 1], dirty[|dirty| - 1];
      assert dirty == front + [last];
      if last in incoming then Omitted(front, incoming) else Omitted(front, incoming) + [last]
  }

  lemma {:induction false} OmittedAscends(dirty: seq<int>, incoming: seq<int>)
    requires Ascending(dirty)
    ensures Ascending(Omitted(dirty, incoming))
  {
    if dirty != [] {
      var front, last := dirty[..|dirty| - 1], dirty[|dirty| - 1];
      var rest := Omitted(front, incoming);
      OmittedAscends(front, incoming);
      forall k | 0 <= k < |rest| ensures rest[k] < last {
        assert rest[k] in rest;
        var j :| 0 <= j < |front| && front[j] == rest[k];
      }
    }
  }

  /** The dirty ids a load must roll back: those the incoming snapshot does not name. */
  method SelectOmitted(dirty: seq<int>, incoming: seq<int>) returns (omitted: seq<int>)
    requires Ascending(incoming)
    ensures omitted == Omitted(dirty, incoming)
  {
    omitted := [];
    for k := 0 to |dirty|
      invariant omitted == Omitted(dirty[..k], incoming)
    {
      var place := SearchSorted(incoming, dirty[k]);
      var keep := place < |incoming| && incoming[place] == dirty[k];
      assert keep <==> dirty[k] in incoming;
      assert dirty[..k + 1][..k] == dirty[..k];
      if !keep {
        omitted := omitted + [dirty[k]];
      }
    }
    assert dirty[..|dirty|] == dirty;
  }

  // ----- reading the base

  /** From begin to end, the ids are adjacent. */
  ghost predicate IsRun(ids: seq<int>, begin: nat, end: nat) {
    begin < end <= |ids| && forall k :: begin < k < end ==> ids[k] == ids[k - 1] + 1
  }

  /** Where runs of adjacent ids begin, and the end. */
  method Boundaries(ids: seq<int>) returns (boundaries: seq<nat>)
    requires ids != []
    ensures 2 <= |boundaries| && boundaries[0] == 0 && boundaries[|boundaries| - 1] == |ids|
    ensures forall b, c :: 0 <= b && c == b + 1 < |boundaries| ==> IsRun(ids, boundaries[b], boundaries[c])
  {
    boundaries := [0];
    for k := 1 to |ids|
      invariant 1 <= |boundaries| && boundaries[0] == 0
      invariant forall b, c :: 0 <= b && c == b + 1 < |boundaries| ==> IsRun(ids, boundaries[b], boundaries[c])
      invariant IsRun(ids, boundaries[|boundaries| - 1], k)
    {
      if ids[k] != ids[k - 1] + 1 {
        boundaries := boundaries + [k];
      }
    }
    boundaries := boundaries + [|ids|];
  }

  /** Along a run of adjacent ids, ids count up. */
  lemma {:induction false} RunCounts(ids: seq<int>, begin: nat, k: nat)
    requires begin <= k < |ids| && IsRun(ids, begin, k + 1)
    ensures ids[k] == ids[begin] + (k - begin)
  {
    if begin < k {
      assert IsRun(ids, begin, k);
      RunCounts(ids, begin, k - 1);
    }
  }

  /** `ReleasedEngramRows.__call__`: one contiguous read per run of adjacent ids. `broken` is a reader error. */
  method ReadBase<Row(0)>(source: seq<Row>, globalIds: seq<int>, limit: nat, broken: bool) returns (read: Option<seq<Row>>)
    requires InRange(globalIds, |source|)
    ensures read.None? <==> broken || |globalIds| > limit
    ensures read.Some? ==> read.value == Lookup(source, globalIds)
  {
    if broken || |globalIds| > limit {
      return None;
    }
    var output := new Row[|globalIds|];
    if globalIds != [] {
      var boundaries := Boundaries(globalIds);
      for b := 0 to |boundaries| - 1
        invariant b == |boundaries| - 1 || IsRun(globalIds, boundaries[b], boundaries[b + 1])
        invariant forall k :: 0 <= k < boundaries[b] ==> output[k] == source[globalIds[k]]
      {
        var begin, end := boundaries[b], boundaries[b + 1];
        assert IsRun(globalIds, begin, end);
        assert b + 2 < |boundaries| ==> IsRun(globalIds, boundaries[b + 1], boundaries[b + 2]);
        RunCounts(globalIds, begin, end - 1);
        var rows := source[globalIds[begin]..globalIds[end - 1] + 1];
        for k := begin to end
          invariant forall j :: 0 <= j < k ==> output[j] == source[globalIds[j]]
        {
          assert IsRun(globalIds, begin, k + 1);
          RunCounts(globalIds, begin, k);
          output[k] := rows[k - begin];
        }
      }
    }
    return Some(output[..]);
  }

  /** No later place before n names the same row. */
  ghost predicate IsLast(touched: seq<int>, k: nat, n: nat)
    requires k < n <= |touched|
  {
    forall j :: k < j < n ==> touched[j] != touched[k]
  }

  datatype LoadOutcome = Loaded | Rejected | BaseReadFailed

  class OwnerTable<Row(0)> {
    const source: seq<Row>
    const rowStart: nat
    const chunkRows: nat
    const weight: array<Row>
    var dirty: seq<int>

    /** Outside the sorted dirty ids, the table is the base. */
    ghost predicate Valid()
      reads this, weight
    {
      && 1 <= chunkRows && rowStart + weight.Length <= |source|
      && Ascending(dirty) && InRange(dirty, weight.Length)
      && forall i :: 0 <= i < weight.Length && i !in dirty ==> weight[i] == source[rowStart + i]
    }

    ghost function Base(): (base: seq<Row>)
      requires rowStart + weight.Length <= |source|
      ensures |base| == weight.Length && forall i :: 0 <= i < weight.Length ==> base[i] == source[rowStart + i]
    {
      source[rowStart..rowStart + weight.Length]
    }

    constructor (source: seq<Row>, rowStart: nat, rowStop: nat, chunkRows: nat)
      requires rowStart <= rowStop <= |source| && 1 <= chunkRows
      ensures Valid() && fresh(weight) && dirty == []
      ensures this.source == source && this.rowStart == rowStart && this.chunkRows == chunkRows
      ensures weight.Length == rowStop - rowStart && weight[..] == Base()
    {
      this.source, this.rowStart, this.chunkRows := source, rowStart, chunkRows;
      this.dirty := [];
      this.weight := new Row[rowStop - rowStart](i requires 0 <= i < rowStop - rowStart => source[rowStart + i]);
    }

    /** A sparse optimizer step and the hook after it: the rows named by the gradient change, in any way, and
        become dirty. Gradient indices may repeat. */
    method Step(touched: seq<int>, updated: seq<Row>)
      requires Valid() && |updated| == |touched| && InRange(touched, weight.Length)
      modifies weight, this`dirty
      ensures Valid()
      ensures dirty == SortedUnique(old(dirty) + touched)
      ensures forall i :: 0 <= i < weight.Length && i !in touched ==> weight[i] == old(weight[i])
      ensures forall k :: 0 <= k < |touched| && IsLast(touched, k, |touched|) ==> weight[touched[k]] == updated[k]
    {
      for k := 0 to |touched|
        invariant dirty == old(dirty)
        invariant forall i :: 0 <= i < weight.Length && i !in touched ==> weight[i] == old(weight[i])
        invariant forall j :: 0 <= j < k && IsLast(touched, j, k) ==> weight[touched[j]] == updated[j]
      {
        weight[touched[k]] := updated[k];
      }
      ghost var before := dirty;
      dirty := SortedUnique(dirty + touched);
      forall k | 0 <= k < |dirty| ensures 0 <= dirty[k] < weight.Length {
        assert dirty[k] in dirty;
      }
      assert forall i :: i in dirty <==> i in before || i in touched;
    }

    /** Only the dirty rows are saved, and they are enough: over the base they are the table. */
    method StateDict() returns (delta: Delta<Row>)
      requires Valid()
      ensures InRange(dirty, |weight[..]|) && delta == Snapshot(weight[..], dirty)
      ensures ValidDelta(delta, weight.Length) && Overlay(Base(), delta) == weight[..]
    {
      delta := Snapshot(weight[..], dirty);
      SnapshotIsComplete(Base(), weight[..], dirty);
    }

    /** Put the base's rows back at these ids, chunk by chunk, until a read fails. */
    method RollBack(ids: seq<int>, broken: seq<bool>) returns (ok: bool)
      requires Valid() && Ascending(ids) && InRange(ids, weight.Length)
      requires forall i :: i in ids ==> i in dirty
      modifies weight
      ensures Valid()
      ensures ok ==> forall i :: i in ids ==> weight[i] == source[rowStart + i]
      ensures forall i :: 0 <= i < weight.Length && i !in ids ==> weight[i] == old(weight[i])
      ensures broken == [] ==> ok
    {
      var start, chunk := 0, 0;
      while start < |ids|
        invariant start <= |ids|
        invariant forall k :: 0 <= k < start ==> weight[ids[k]] == source[rowStart + ids[k]]
        invariant forall i :: 0 <= i < weight.Length && i !in ids ==> weight[i] == old(weight[i])
      {
        var stop := if start + chunkRows < |ids| then start + chunkRows else |ids|;
        var localIds := ids[start..stop];
        var failing := chunk < |broken| && broken[chunk];
        var rows := ReadBase(source, Shifted(localIds, rowStart), chunkRows, failing);
        if rows.None? {
          return false;
        }
        CopyChunk(ids, start, stop, rows.value);
        start, chunk := stop, chunk + 1;
      }
      return true;
    }

    /** Overlaying a chunk of ascending ids changes the rows of that chunk and no others. */
    static lemma ChunkCopied(before: seq<Row>, ids: seq<int>, start: nat, stop: nat, rows: seq<Row>)
      requires start <= stop <= |ids| && |rows| == stop - start && Ascending(ids) && InRange(ids, |before|)
      ensures var after := Overlay(before, Delta(ids[start..stop], rows));
              && (forall k :: start <= k < stop ==> after[ids[k]] == rows[k - start])
              && (forall k :: 0 <= k < start ==> after[ids[k]] == before[ids[k]])
              && (forall i :: 0 <= i < |before| && i !in ids ==> after[i] == before[i])
    {
      hide IndexOf;
      var part := ids[start..stop];
      forall k | 0 <= k < stop
        ensures if k < start then ids[k] !in part else ids[k] in part && IndexOf(part, ids[k]) == k - start
      {
        if start <= k {
          assert part[k - start] == ids[k];
          IndexOfIs(part, k - start);
        }
      }
    }

    method CopyChunk(ids: seq<int>, start: nat, stop: nat, rows: seq<Row>)
      requires rowStart + weight.Length <= |source|
      requires start <= stop <= |ids| && |rows| == stop - start && Ascending(ids) && InRange(ids, weight.Length)
      requires forall k :: 0 <= k < |rows| ==> rows[k] == source[rowStart + ids[start + k]]
      requires forall k :: 0 <= k < start ==> weight[ids[k]] == source[rowStart + ids[k]]
      modifies weight
      ensures forall k :: 0 <= k < stop ==> weight[ids[k]] == source[rowStart + ids[k]]
      ensures forall i :: 0 <= i < weight.Length && i !in ids ==> weight[i] == old(weight[i])
    {
      hide Overlay, IndexOf;
      ghost var before := weight[..];
      IndexCopy(weight, ids[start..stop], rows);
      ChunkCopied(before, ids, start, stop, rows);
      assert forall k :: 0 <= k < start ==> before[ids[k]] == source[rowStart + ids[k]];
      assert forall k :: 0 <= k < stop ==> weight[..][ids[k]] == source[rowStart + ids[k]];
    }

    /** The table is the base under the payload, and the payload's rows are the dirty ones. */
    ghost predicate Shows(payload: Delta<Row>)
      reads this, weight
    {
      && |payload.values| == |payload.indices| && rowStart + weight.Length <= |source|
      && weight[..] == Overlay(Base(), payload) && dirty == payload.indices
    }

    /** `EngramCheckpoint.load_state_dict`: reread only the dirty rows the payload omits, then install it. */
    method Load(payload: Delta<Row>, broken: seq<bool>) returns (outcome: LoadOutcome)
      requires Valid()
      modifies weight, this`dirty
      ensures Valid()
      ensures outcome == Rejected <==> !Checked(payload, weight.Length)
      ensures outcome == Loaded ==> Shows(payload)
      ensures outcome != Loaded ==> dirty == old(dirty)
      ensures outcome == Rejected ==> weight[..] == old(weight[..])
      ensures broken == [] ==> outcome != BaseReadFailed
    {
      if !Checked(payload, weight.Length) {
        return Rejected;
      }
      CheckedIsValid(payload, weight.Length);
      var omitted := SelectOmitted(dirty, payload.indices);
      OmittedAscends(dirty, payload.indices);
      forall k | 0 <= k < |omitted| ensures omitted[k] in dirty {
        assert omitted[k] in omitted;
      }
      var ok := RollBack(omitted, broken);
      if !ok {
        return BaseReadFailed;
      }
      Install(payload);
      return Loaded;
    }

    /** Install a payload over a table whose other dirty rows are back at the base. */
    method Install(payload: Delta<Row>)
      requires Valid() && ValidDelta(payload, weight.Length)
      requires forall i :: 0 <= i < weight.Length && i !in payload.indices ==> weight[i] == source[rowStart + i]
      modifies weight, this`dirty
      ensures Valid() && weight[..] == Overlay(Base(), payload) && dirty == payload.indices
    {
      IndexCopy(weight, payload.indices, payload.values);
      dirty := payload.indices;
      assert weight[..] == Overlay(Base(), payload);
    }

    /** `EngramState.load_state_dict`: put every dirty row back from the mapped baseline, then install. It ends
        where the selective load ends. */
    method LoadByFullRollback(payload: Delta<Row>) returns (ok: bool)
      requires Valid()
      modifies weight, this`dirty
      ensures Valid() && (ok <==> Checked(payload, weight.Length))
      ensures ok ==> weight[..] == Overlay(Base(), payload) && dirty == payload.indices
      ensures !ok ==> dirty == old(dirty) && weight[..] == old(weight[..])
    {
      if !Checked(payload, weight.Length) {
        return false;
      }
      CheckedIsValid(payload, weight.Length);
      ok := RollBack(dirty, []);
      Install(payload);
    }
  }

  // ----- whole runs

  datatype Op<Row> =
    | StepOp(touched: seq<int>, updated: seq<Row>)
    | SaveOp
    | LoadOp(payload: Delta<Row>, broken: seq<bool>, everything: bool)
    | RestoreOp(save: nat, broken: seq<bool>, everything: bool)

  predicate Feasible<Row>(op: Op<Row>, rows: nat) {
    op.StepOp? ==> |op.updated| == |op.touched| && InRange(op.touched, rows)
  }

  /** A snapshot, and what the table held when it was taken. */
  datatype Saved<Row> = Saved(delta: Delta<Row>, rows: seq<Row>)

  function SavesBefore<Row>(ops: seq<Op<Row>>, k: nat): nat
    requires k <= |ops|
  {
    if k == 0 then 0 else SavesBefore(ops, k - 1) + if ops[k - 1].SaveOp? then 1 else 0
  }

  /** What one operation does to the table's rows: a step changes only the rows it names, a rejected load nothing,
      a finished load makes them the base under its payload, and a finished restore of any earlier snapshot makes
      them what that snapshot was taken of. */
  ghost predicate Happened<Row>(
    base: seq<Row>, op: Op<Row>, before: seq<Row>, outcome: LoadOutcome, after: seq<Row>,
    saves: seq<Saved<Row>>, taken: nat)
  {
    |before| == |after| == |base| &&
    match op
    case StepOp(touched, updated) => forall i :: 0 <= i < |before| && i !in touched ==> after[i] == before[i]
    case SaveOp => after == before && taken < |saves| && saves[taken].rows == before
    case LoadOp(payload, _, _) =>
      && (outcome == Rejected <==> !Checked(payload, |base|))
      && (outcome == Rejected ==> after == before)
      && (outcome == Loaded ==> |payload.values| == |payload.indices| && after == Overlay(base, payload))
    case RestoreOp(save, _, _) =>
      && (outcome == Loaded ==> save < taken <= |saves| && after == saves[save].rows)
      && (outcome == Rejected ==> taken <= save)
  }

  method LoadEither<Row(0)>(table: OwnerTable<Row>, payload: Delta<Row>, broken: seq<bool>, everything: bool)
    returns (outcome: LoadOutcome)
    requires table.Valid()
    modifies table, table.weight
    ensures table.Valid()
    ensures outcome == Rejected <==> !Checked(payload, table.weight.Length)
    ensures outcome == Rejected ==> table.weight[..] == old(table.weight[..])
    ensures outcome == Loaded ==> table.weight[..] == Overlay(table.Base(), payload) && table.dirty == payload.indices
  {
    if everything {
      var ok := table.LoadByFullRollback(payload);
      outcome := if ok then Loaded else Rejected;
    } else {
      outcome := table.Load(payload, broken);
    }
  }

  /** Any interleaving of steps, saves and loads, with any base reads failing. `contents` are the table's rows
      before the first and after every operation. */
  method Replay<Row(0)>(table: OwnerTable<Row>, ops: seq<Op<Row>>)
    returns (saves: seq<Saved<Row>>, outcomes: seq<LoadOutcome>, contents: seq<seq<Row>>)
    requires table.Valid() && forall k :: 0 <= k < |ops| ==> Feasible(ops[k], table.weight.Length)
    modifies table, table.weight
    ensures table.Valid() && |outcomes| == |ops| && |contents| == |ops| + 1 && |saves| == SavesBefore(ops, |ops|)
    ensures contents[0] == old(table.weight[..]) && contents[|ops|] == table.weight[..]
    ensures forall s :: 0 <= s < |saves| ==>
              ValidDelta(saves[s].delta, table.weight.Length) && Overlay(table.Base(), saves[s].delta) == saves[s].rows
    ensures forall k :: 0 <= k < |ops| ==>
              Happened(table.Base(), ops[k], contents[k], outcomes[k], contents[k + 1], saves, SavesBefore(ops, k))
  {
    saves, outcomes, contents := [], [], [table.weight[..]];
    for k := 0 to |ops|
      invariant table.Valid() && |outcomes| == k && |contents| == k + 1 && |saves| == SavesBefore(ops, k)
      invariant contents[0] == old(table.weight[..]) && contents[k] == table.weight[..]
      invariant forall s :: 0 <= s < |saves| ==>
                  ValidDelta(saves[s].delta, table.weight.Length) && Overlay(table.Base(), saves[s].delta) == saves[s].rows
      invariant forall j :: 0 <= j < k ==>
                  Happened(table.Base(), ops[j], contents[j], outcomes[j], contents[j + 1], saves, SavesBefore(ops, j))
    {
      ghost var earlier := saves;
      var outcome, saved := Perform(table, ops[k], saves);
      saves := saves + saved;
      forall j | 0 <= j < k
        ensures Happened(table.Base(), ops[j], contents[j], outcomes[j], contents[j + 1], saves, SavesBefore(ops, j))
      {
        StillHappened(table.Base(), ops[j], contents[j], outcomes[j], contents[j + 1], earlier, saved, SavesBefore(ops, j));
      }
      outcomes, contents := outcomes + [outcome], contents + [table.weight[..]];
    }
  }

  lemma StillHappened<Row>(
    base: seq<Row>, op: Op<Row>, before: seq<Row>, outcome: LoadOutcome, after: seq<Row>,
    saves: seq<Saved<Row>>, more: seq<Saved<Row>>, taken: nat)
    requires Happened(base, op, before, outcome, after, saves, taken)
    ensures Happened(base, op, before, outcome, after, saves + more, taken)
  {
  }

  method Perform<Row(0)>(table: OwnerTable<Row>, op: Op<Row>, saves: seq<Saved<Row>>)
    returns (outcome: LoadOutcome, saved: seq<Saved<Row>>)
    requires table.Valid() && Feasible(op, table.weight.Length)
    requires forall s :: 0 <= s < |saves| ==>
               ValidDelta(saves[s].delta, table.weight.Length) && Overlay(table.Base(), saves[s].delta) == saves[s].rows
    modifies table, table.weight
    ensures table.Valid() && |saved| == if op.SaveOp? then 1 else 0
    ensures forall s :: 0 <= s < |saved| ==>
              ValidDelta(saved[s].delta, table.weight.Length) && Overlay(table.Base(), saved[s].delta) == saved[s].rows
    ensures Happened(table.Base(), op, old(table.weight[..]), outcome, table.weight[..], saves + saved, |saves|)
  {
    outcome, saved := Rejected, [];
    match op
    case StepOp(touched, updated) => table.Step(touched, updated);
    case SaveOp =>
      var delta := table.StateDict();
      saved := [Saved(delta, table.weight[..])];
    case LoadOp(payload, broken, everything) =>
      outcome := LoadEither(table, payload, broken, everything);
    case RestoreOp(save, broken, everything) =>
      if save < |saves| {
        CheckedIsValid(saves[save].delta, table.weight.Length);
        outcome := LoadEither(table, saves[save].delta, broken, everything);
      }
  }

  // ----- several tables

  ghost function Weights<Row(0)>(tables: seq<OwnerTable<Row>>): set<object> {
    set t | t in tables :: t.weight
  }

  predicate Separate<Row(0)>(tables: seq<OwnerTable<Row>>) {
    forall s, t :: 0 <= s < t < |tables| ==> tables[s] != tables[t] && tables[s].weight != tables[t].weight
  }

  method AllChecked<Row(0)>(tables: seq<OwnerTable<Row>>, payloads: seq<Delta<Row>>) returns (ok: bool)
    requires |payloads| == |tables|
    ensures ok <==> forall t :: 0 <= t < |tables| ==> Checked(payloads[t], tables[t].weight.Length)
  {
    for t := 0 to |tables|
      invariant forall s :: 0 <= s < t ==> Checked(payloads[s], tables[s].weight.Length)
    {
      if !Checked(payloads[t], tables[t].weight.Length) {
        return false;
      }
    }
    return true;
  }

  /** All tables of an owner: every record must pass before any live row changes. */
  method LoadTables<Row(0)>(tables: seq<OwnerTable<Row>>, payloads: seq<Delta<Row>>, broken: seq<seq<bool>>)
    returns (outcome: LoadOutcome)
    requires Separate(tables) && |payloads| == |broken| == |tables|
    requires forall t :: 0 <= t < |tables| ==> tables[t].Valid()
    modifies tables, Weights(tables)
    ensures forall t :: 0 <= t < |tables| ==> tables[t].Valid()
    ensures outcome == Rejected <==> exists t :: 0 <= t < |tables| && !Checked(payloads[t], tables[t].weight.Length)
    ensures outcome == Rejected ==> forall t :: 0 <= t < |tables| ==>
              tables[t].dirty == old(tables[t].dirty) && tables[t].weight[..] == old(tables[t].weight[..])
    ensures outcome == Loaded ==> forall t :: 0 <= t < |tables| ==> tables[t].Shows(payloads[t])
  {
    hide Checked, Overlay, OwnerTable.Valid, OwnerTable.Shows;
    var ok := AllChecked(tables, payloads);
    if !ok {
      return Rejected;
    }
    for t := 0 to |tables|
      invariant forall s :: 0 <= s < |tables| ==> tables[s].Valid()
      invariant forall s :: 0 <= s < t ==> tables[s].Shows(payloads[s])
    {
      assert forall s :: 0 <= s < |tables| && s != t ==> tables[s] != tables[t] && tables[s].weight != tables[t].weight;
      outcome := tables[t].Load(payloads[t], broken[t]);
      if outcome != Loaded {
        return;
      }
    }
    return Loaded;
  }
}
