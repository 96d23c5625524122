/** Joining the owners' row snapshots into one portable delta (dsv41_train/sft_export.py, `_global_rows`). */
module DeltaExport {
  import opened DeltaRows
  import opened RowIds
  import opened Sorting
  import opened Wrappers

  /** One owner's rows start..stop of the table, and its snapshot by local row. */
  datatype Owner<Row> = Owner(start: int, stop: int, delta: Delta<Row>)

  predicate InBounds<Row>(owner: Owner<Row>, total: nat) {
    0 <= owner.start <= owner.stop <= total
  }

  datatype ExportError = BadOwner | Misaligned | Uncovered | BadResult

  // ----- what a correct partition is

  predicate Holds<Row>(owner: Owner<Row>, i: int) {
    owner.start <= i < owner.stop
  }

  ghost predicate HeldBySome<Row>(owners: seq<Owner<Row>>, i: int) {
    exists k :: 0 <= k < |owners| && Holds(owners[k], i)
  }

  /** Every row has exactly one owner, and no owner without rows sits inside another's range. */
  ghost predicate Partitioned<Row>(owners: seq<Owner<Row>>, total: nat) {
    && (forall k :: 0 <= k < |owners| ==> InBounds(owners[k], total))
    && (forall i :: 0 <= i < total ==> HeldBySome(owners, i))
    && (forall j, k, i :: 0 <= j < |owners| && 0 <= k < |owners| && Holds(owners[j], i) && Holds(owners[k], i) ==> j == k)
    && (forall j, k :: 0 <= j < |owners| && 0 <= k < |owners| && owners[k].start == owners[k].stop ==>
          !(owners[j].start < owners[k].start < owners[j].stop))
  }

  /** Each owner begins where the one before it ends. */
  ghost predicate Chained<Row>(owners: seq<Owner<Row>>, high: int) {
    if owners == [] then high == 0
    else
      var last := owners[|owners| - 1];
      Chained(owners[..|owners| - 1], last.start) && last.start <= last.stop == high
  }

  ghost predicate Ordered<Row>(owners: seq<Owner<Row>>) {
    forall j, k :: 0 <= j < k < |owners| ==>
      owners[j].start < owners[k].start || (owners[j].start == owners[k].start && owners[j].stop <= owners[k].stop)
  }

  lemma {:induction false} ChainBounds<Row>(owners: seq<Owner<Row>>, high: int)
    requires Chained(owners, high)
    ensures 0 <= high
    ensures forall k :: 0 <= k < |owners| ==> 0 <= owners[k].start <= owners[k].stop <= high
    ensures forall j, k :: 0 <= j < k < |owners| ==> owners[j].stop <= owners[k].start
    ensures forall i :: 0 <= i < high ==> HeldBySome(owners, i)
  {
    if owners != [] {
      var front, last := owners[..|owners| - 1], owners[|owners| - 1];
      ChainBounds(front, last.start);
      forall i | 0 <= i < high ensures HeldBySome(owners, i) {
        if i < last.start {
          assert HeldBySome(front, i);
          var k :| 0 <= k < |front| && Holds(front[k], i);
          assert Holds(owners[k], i);
        } else {
          assert Holds(owners[|owners| - 1], i);
        }
      }
    }
  }

  lemma ChainIsPartition<Row>(owners: seq<Owner<Row>>, total: nat)
    requires Chained(owners, total)
    ensures Partitioned(owners, total)
  {
    ChainBounds(owners, total);
  }

  /** In order, no owner of a partition begins inside the chain before it. */
  lemma NothingInside<Row>(owners: seq<Owner<Row>>, total: nat, k: nat, high: int)
    requires Partitioned(owners, total) && Ordered(owners) && k < |owners| && Chained(owners[..k], high)
    ensures high <= owners[k].start
  {
    var next := owners[k];
    assert InBounds(next, total);
    assert Holds(next, next.start) <==> next.start < next.stop;
    if next.start < high {
      var j := PrefixHolder(owners, k, high, next.start);
    }
  }

  lemma PrefixHolder<Row>(owners: seq<Owner<Row>>, k: nat, high: int, i: int) returns (j: nat)
    requires k <= |owners| && Chained(owners[..k], high) && 0 <= i < high
    ensures j < k && Holds(owners[j], i)
  {
    ChainBounds(owners[..k], high);
    assert HeldBySome(owners[..k], i);
    j :| 0 <= j < k && Holds(owners[..k][j], i);
  }

  /** In order, no owner of a partition begins beyond the chain before it. */
  lemma NothingBefore<Row>(owners: seq<Owner<Row>>, total: nat, k: nat, high: int)
    requires Partitioned(owners, total) && Ordered(owners) && k < |owners| && Chained(owners[..k], high)
    ensures owners[k].start <= high
  {
    assert InBounds(owners[k], total);
    if high < owners[k].start {
      ChainIsNonnegative(owners[..k], high);
      assert HeldBySome(owners, high);
      var j :| 0 <= j < |owners| && Holds(owners[j], high);
      ChainStops(owners, k, high);
    }
  }

  lemma ChainIsNonnegative<Row>(owners: seq<Owner<Row>>, high: int)
    requires Chained(owners, high)
    ensures 0 <= high
  {
    ChainBounds(owners, high);
  }

  lemma ChainStops<Row>(owners: seq<Owner<Row>>, k: nat, high: int)
    requires k <= |owners| && Chained(owners[..k], high)
    ensures forall j :: 0 <= j < k ==> owners[j].stop <= high
  {
    var front := owners[..k];
    ChainBounds(front, high);
    assert forall j :: 0 <= j < k ==> owners[j] == front[j];
  }

  /** In order, the next owner of a partition begins exactly where the chain so far ends. */
  lemma NextBegins<Row>(owners: seq<Owner<Row>>, total: nat, k: nat, high: int)
    requires Partitioned(owners, total) && Ordered(owners) && k < |owners| && Chained(owners[..k], high)
    ensures owners[k].start == high
  {
    var next := owners[k];
    assert InBounds(next, total);
    if next.start < high {
      NothingInside(owners, total, k, high);
    } else if next.start > high {
      NothingBefore(owners, total, k, high);
    }
  }

  lemma {:induction false} PartitionChains<Row>(owners: seq<Owner<Row>>, total: nat, k: nat) returns (high: int)
    requires Partitioned(owners, total) && Ordered(owners) && k <= |owners|
    ensures Chained(owners[..k], high)
  {
    high := 0;
    if k > 0 {
      high := PartitionChains(owners, total, k - 1);
      NextBegins(owners, total, k - 1, high);
      assert owners[..k][..k - 1] == owners[..k - 1];
      assert InBounds(owners[k - 1], total);
      high := owners[k - 1].stop;
    }
  }

  /** In order, a partition is the same as a chain that ends at the last row. */
  lemma PartitionIsChain<Row>(owners: seq<Owner<Row>>, total: nat)
    requires Ordered(owners)
    ensures Partitioned(owners, total) <==> Chained(owners, total)
  {
    if Chained(owners, total) {
      ChainIsPartition(owners, total);
    }
    if Partitioned(owners, total) {
      var high := PartitionChains(owners, total, |owners|);
      assert owners[..|owners|] == owners;
      ChainEnds(owners, total, high);
    }
  }

  lemma ChainEnds<Row>(owners: seq<Owner<Row>>, total: nat, high: int)
    requires Partitioned(owners, total) && Chained(owners, high)
    ensures high == total
  {
    ChainIsNonnegative(owners, high);
    if owners != [] {
      assert InBounds(owners[|owners| - 1], total);
    }
    if 0 < total {
      assert HeldBySome(owners, total - 1);
      var j :| 0 <= j < |owners| && Holds(owners[j], total - 1);
      ChainBounds(owners, high);
    }
  }

  // ----- sorting owners

  function OwnerKeys<Row>(owners: seq<Owner<Row>>): (keys: seq<Key>)
    ensures |keys| == |owners|
    ensures forall k :: 0 <= k < |owners| ==> keys[k] == Key(owners[k].start, owners[k].stop)
  {
    seq(|owners|, k requires 0 <= k < |owners| => Key(owners[k].start, owners[k].stop))
  }

  function Sorted<Row>(owners: seq<Owner<Row>>): (sorted: seq<Owner<Row>>)
    ensures |sorted| == |owners| && Ordered(sorted)
    ensures forall p :: 0 <= p < |owners| ==> sorted[p] == owners[StableOrder(OwnerKeys(owners))[p]]
  {
    var order := StableOrder(OwnerKeys(owners));
    assert forall p, q :: 0 <= p < q < |order| ==> Before(OwnerKeys(owners), order[p], order[q]);
    seq(|owners|, p requires 0 <= p < |owners| => owners[order[p]])
  }

  /** Whether the owners partition the table does not depend on their order. */
  lemma SortingKeepsPartition<Row>(owners: seq<Owner<Row>>, total: nat)
    ensures Partitioned(Sorted(owners), total) <==> Partitioned(owners, total)
  {
    var keys := OwnerKeys(owners);
    var order, sorted := StableOrder(keys), Sorted(owners);
    assert IsOrder(keys, order, |keys|);
    if Partitioned(owners, total) {
      forall i | 0 <= i < total ensures HeldBySome(sorted, i) {
        assert HeldBySome(owners, i);
        var k :| 0 <= k < |owners| && Holds(owners[k], i);
        var p := PlaceOf(keys, order, k);
        assert Holds(sorted[p], i);
      }
      forall j, k, i | 0 <= j < |sorted| && 0 <= k < |sorted| && Holds(sorted[j], i) && Holds(sorted[k], i)
        ensures j == k
      {
        assert Holds(owners[order[j]], i) && Holds(owners[order[k]], i);
        if j != k {
          OrderSeparates(keys, order, j, k);
        }
      }
    }
    if Partitioned(sorted, total) {
      PlacesInOrder(owners, total);
    }
  }

  lemma OrderSeparates(keys: seq<Key>, order: seq<nat>, j: nat, k: nat)
    requires IsOrder(keys, order, |keys|) && j < |order| && k < |order| && j != k
    ensures order[j] != order[k]
  {
    if j < k {
      assert Before(keys, order[j], order[k]);
    } else if k < j {
      assert Before(keys, order[k], order[j]);
    }
  }

  lemma PlaceOf(keys: seq<Key>, order: seq<nat>, k: nat) returns (p: nat)
    requires IsOrder(keys, order, |keys|) && k < |keys|
    ensures p < |order| && order[p] == k
  {
    assert k in order;
    p :| 0 <= p < |order| && order[p] == k;
  }

  lemma SortedPlace<Row>(owners: seq<Owner<Row>>, k: nat) returns (p: nat)
    requires k < |owners|
    ensures p < |owners| && StableOrder(OwnerKeys(owners))[p] == k && Sorted(owners)[p] == owners[k]
  {
    var keys := OwnerKeys(owners);
    p := PlaceOf(keys, StableOrder(keys), k);
  }

  lemma SortedHeld<Row>(owners: seq<Owner<Row>>, i: int)
    requires HeldBySome(Sorted(owners), i)
    ensures HeldBySome(owners, i)
  {
    var p :| 0 <= p < |owners| && Holds(Sorted(owners)[p], i);
    var order := StableOrder(OwnerKeys(owners));
    assert IsOrder(OwnerKeys(owners), order, |owners|);
    assert order[p] in order && Holds(owners[order[p]], i);
  }

  lemma SortedApart<Row>(owners: seq<Owner<Row>>, total: nat, j: nat, k: nat)
    requires Partitioned(Sorted(owners), total) && j < |owners| && k < |owners|
    ensures InBounds(owners[j], total)
    ensures forall i :: Holds(owners[j], i) && Holds(owners[k], i) ==> j == k
    ensures owners[k].start == owners[k].stop ==> !(owners[j].start < owners[k].start < owners[j].stop)
  {
    hide HeldBySome, OwnerKeys;
    var p := SortedPlace(owners, j);
    var q := SortedPlace(owners, k);
  }

  lemma PlacesInOrder<Row>(owners: seq<Owner<Row>>, total: nat)
    requires Partitioned(Sorted(owners), total)
    ensures Partitioned(owners, total)
  {
    hide HeldBySome, Holds, OwnerKeys, InBounds;
    forall i | 0 <= i < total ensures HeldBySome(owners, i) {
      SortedHeld(owners, i);
    }
    forall j, k | 0 <= j < |owners| && 0 <= k < |owners|
      ensures InBounds(owners[j], total) && (forall i :: Holds(owners[j], i) && Holds(owners[k], i) ==> j == k)
      ensures owners[k].start == owners[k].stop ==> !(owners[j].start < owners[k].start < owners[j].stop)
    {
      SortedApart(owners, total, j, k);
    }
  }

  // ----- joining

  predicate GoodOwner<Row>(owner: Owner<Row>, total: nat) {
    InBounds(owner, total) && Checked(owner.delta, owner.stop - owner.start)
  }

  function JoinedIndices<Row>(owners: seq<Owner<Row>>): seq<int> {
    if owners == [] then []
    else
      var last := owners[|owners| - 1];
      JoinedIndices(owners[..|owners| - 1]) + Shifted(last.delta.indices, last.start)
  }

  function JoinedValues<Row>(owners: seq<Owner<Row>>): seq<Row> {
    if owners == [] then [] else JoinedValues(owners[..|owners| - 1]) + owners[|owners| - 1].delta.values
  }

  function Joined<Row>(owners: seq<Owner<Row>>): Delta<Row> {
    Delta(JoinedIndices(owners), JoinedValues(owners))
  }

  ghost predicate Compatible<Row>(owners: seq<Owner<Row>>, high: int) {
    && Chained(owners, high)
    && forall k :: 0 <= k < |owners| ==> ValidDelta(owners[k].delta, owners[k].stop - owners[k].start)
  }

  /** Along a chain, the joined indices ascend strictly and stay in range. */
  lemma {:induction false} JoinedIsValid<Row>(owners: seq<Owner<Row>>, high: nat)
    requires Compatible(owners, high)
    ensures ValidDelta(Joined(owners), high)
  {
    if owners != [] {
      var front, last := owners[..|owners| - 1], owners[|owners| - 1];
      ChainBounds(front, last.start);
      JoinedIsValid(front, last.start);
    }
  }

  /** The joined delta has for every row what the row's owner has for it. */
  lemma {:induction false} JoinedRows<Row>(owners: seq<Owner<Row>>, high: int, k: nat, i: int)
    requires Compatible(owners, high) && k < |owners| && Holds(owners[k], i)
    ensures |Joined(owners).values| == |Joined(owners).indices|
    ensures RowAt(Joined(owners), i) == RowAt(owners[k].delta, i - owners[k].start)
  {
    ChainBounds(owners, high);
    JoinedIsValid(owners, high);
    var front, last := owners[..|owners| - 1], owners[|owners| - 1];
    JoinedIsValid(front, last.start);
    var before, after := Joined(front), Joined(owners);
    hide RowAt;
    if k < |front| {
      JoinedRows(front, last.start, k, i);
      FrontRow(before, last, after, i);
    } else {
      LastRow(before, last, after, i);
    }
  }

  ghost predicate Appends<Row>(before: Delta<Row>, last: Owner<Row>, after: Delta<Row>) {
    && |before.values| == |before.indices| && |last.delta.values| == |last.delta.indices|
    && Ascending(after.indices) && InRange(before.indices, last.start) && InRange(last.delta.indices, last.stop)
    && after.indices == before.indices + Shifted(last.delta.indices, last.start)
    && after.values == before.values + last.delta.values
  }

  lemma FrontRow<Row>(before: Delta<Row>, last: Owner<Row>, after: Delta<Row>, i: int)
    requires Appends(before, last, after) && i < last.start
    ensures RowAt(after, i) == RowAt(before, i)
  {
    if i in before.indices {
      var k := IndexOf(before.indices, i);
      assert after.indices[k] == i;
      IndexOfIs(after.indices, k);
    }
  }

  lemma LastRow<Row>(before: Delta<Row>, last: Owner<Row>, after: Delta<Row>, i: int)
    requires Appends(before, last, after) && last.start <= i
    ensures RowAt(after, i) == RowAt(last.delta, i - last.start)
  {
    LastMember(before, last, after, i);
    if i - last.start in last.delta.indices {
      var k := IndexOf(last.delta.indices, i - last.start);
      assert after.indices[|before.indices| + k] == i;
      IndexOfIs(after.indices, |before.indices| + k);
    }
  }

  lemma LastMember<Row>(before: Delta<Row>, last: Owner<Row>, after: Delta<Row>, i: int)
    requires Appends(before, last, after) && last.start <= i
    ensures i in after.indices <==> i - last.start in last.delta.indices
  {
    var shifted := Shifted(last.delta.indices, last.start);
    assert i !in before.indices;
    if i in shifted {
      var k :| 0 <= k < |shifted| && shifted[k] == i;
      assert last.delta.indices[k] == i - last.start;
    }
    if i - last.start in last.delta.indices {
      var k :| 0 <= k < |last.delta.indices| && last.delta.indices[k] == i - last.start;
      assert shifted[k] == i;
    }
  }

  /** Accept the owners exactly if each is in order and together they partition the table; the export is their
      join, which always passes its own validation. */
  method GlobalRows<Row>(owners: seq<Owner<Row>>, total: nat) returns (result: Result<Delta<Row>, ExportError>)
    ensures result.Ok? <==>
              (forall k :: 0 <= k < |owners| ==> GoodOwner(owners[k], total)) && Partitioned(owners, total)
    ensures result.Ok? ==> result.value == Joined(Sorted(owners)) && ValidDelta(result.value, total)
    ensures result != Err(BadResult)
  {
    for k := 0 to |owners|
      invariant forall j :: 0 <= j < k ==> GoodOwner(owners[j], total)
    {
      if !GoodOwner(owners[k], total) {
        return Err(BadOwner);
      }
    }
    var sorted := Sorted(owners);
    PartitionIsChain(sorted, total);
    SortingKeepsPartition(owners, total);
    var error := CheckChain(sorted, total);
    if error.Some? {
      return Err(error.value);
    }
    var delta := Concatenate(sorted);
    SortedAreGood(owners, total);
    JoinedIsValid(sorted, total);
    CheckedIsValid(delta, total);
    if !Checked(delta, total) {
      return Err(BadResult);
    }
    return Ok(delta);
  }

  lemma SortedAreGood<Row>(owners: seq<Owner<Row>>, total: nat)
    requires forall k :: 0 <= k < |owners| ==> GoodOwner(owners[k], total)
    ensures forall k :: 0 <= k < |owners| ==>
              ValidDelta(Sorted(owners)[k].delta, Sorted(owners)[k].stop - Sorted(owners)[k].start)
  {
    var sorted := Sorted(owners);
    forall k | 0 <= k < |owners| ensures ValidDelta(sorted[k].delta, sorted[k].stop - sorted[k].start) {
      var place := StableOrder(OwnerKeys(owners))[k];
      assert GoodOwner(owners[place], total);
      CheckedIsValid(sorted[k].delta, sorted[k].stop - sorted[k].start);
    }
  }

  lemma {:induction false} ChainAt<Row>(owners: seq<Owner<Row>>, high: int, k: nat)
    requires Chained(owners, high) && k < |owners|
    ensures Chained(owners[..k], owners[k].start)
  {
    if k < |owners| - 1 {
      ChainAt(owners[..|owners| - 1], owners[|owners| - 1].start, k);
      assert owners[..|owners| - 1][..k] == owners[..k];
    }
  }

  /** The pass over the sorted owners. */
  method CheckChain<Row>(owners: seq<Owner<Row>>, total: nat) returns (error: Option<ExportError>)
    requires forall k :: 0 <= k < |owners| ==> owners[k].start <= owners[k].stop
    ensures error.None? <==> Chained(owners, total)
    ensures error == None || error == Some(Misaligned) || error == Some(Uncovered)
  {
    var end := 0;
    for k := 0 to |owners|
      invariant Chained(owners[..k], end)
    {
      if owners[k].start != end {
        if Chained(owners, total) {
          ChainAt(owners, total, k);
        }
        return Some(Misaligned);
      }
      assert owners[..k + 1][..k] == owners[..k];
      end := owners[k].stop;
    }
    assert owners[..|owners|] == owners;
    return if end != total then Some(Uncovered) else None;
  }

  method Concatenate<Row>(owners: seq<Owner<Row>>) returns (delta: Delta<Row>)
    ensures delta == Joined(owners)
  {
    var indices, values := [], [];
    for k := 0 to |owners|
      invariant indices == JoinedIndices(owners[..k]) && values == JoinedValues(owners[..k])
    {
      assert owners[..k + 1][..k] == owners[..k];
      indices := indices + Shifted(owners[k].delta.indices, owners[k].start);
      values := values + owners[k].delta.values;
    }
    assert owners[..|owners|] == owners;
    return Delta(indices, values);
  }

  /** The exported delta over any base is every owner's rows under that owner's own snapshot. */
  lemma ExportIsOwnersRows<Row>(owners: seq<Owner<Row>>, total: nat, base: seq<Row>, k: nat, i: int)
    requires forall j :: 0 <= j < |owners| ==> GoodOwner(owners[j], total)
    requires Partitioned(owners, total) && |base| == total && k < |owners| && Holds(owners[k], i)
    ensures 0 <= owners[k].start <= i < owners[k].stop <= total
    ensures |Joined(Sorted(owners)).values| == |Joined(Sorted(owners)).indices|
    ensures |owners[k].delta.values| == |owners[k].delta.indices|
    ensures Overlay(base, Joined(Sorted(owners)))[i]
            == Overlay(base[owners[k].start..owners[k].stop], owners[k].delta)[i - owners[k].start]
  {
    hide Partitioned, Chained, Joined, Sorted, RowAt;
    var keys := OwnerKeys(owners);
    SortingKeepsPartition(owners, total);
    PartitionIsChain(Sorted(owners), total);
    SortedAreGood(owners, total);
    var p := PlaceOf(keys, StableOrder(keys), k);
    assert Sorted(owners)[p] == owners[k];
    JoinedRows(Sorted(owners), total, p, i);
    assert GoodOwner(owners[k], total);
  }
}
