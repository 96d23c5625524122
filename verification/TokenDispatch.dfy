/** Expert-parallel token routing (dsv41_train/dispatch.py).

    A tensor on a rank is a sequence, a reshape of [tokens, topk] rows is a join,
    and a collective is a function on all ranks' buffers. The theorem is that
    dispatching every assignment to the rank that owns its expert, running only
    that rank's experts, and combining returns to each rank what the formula
    without any dispatch gives. */
module TokenDispatch {
  import opened RowIds
  import opened Wrappers
  import opened Sorting
  import opened Collectives

  datatype DispatchError = BadExpertCount | IdsOutOfRange

  /** One expert as seen by a routed token and its routing weight. */
  type Expert<!X, !W, !Y> = (X, W) -> Y

  /** The arguments of `dispatch` on one rank: topk expert ids and weights per token. */
  datatype RankInput<X, W> = RankInput(hidden: seq<X>, topk: nat, expertIds: seq<seq<int>>, weights: seq<seq<W>>)
  {
    predicate WellShaped() {
      && |expertIds| == |hidden| && |weights| == |hidden|
      && forall t :: 0 <= t < |hidden| ==> |expertIds[t]| == topk && |weights[t]| == topk
    }
  }

  datatype Assignment<X, W> = Assignment(token: X, expert: int, weight: W)

  function TokenOf<X, W>(a: Assignment<X, W>): X { a.token }

  function ExpertOf<X, W>(a: Assignment<X, W>): int { a.expert }

  function WeightOf<X, W>(a: Assignment<X, W>): W { a.weight }

  // ----- shape operations shared by both dispatchers

  function Uniform(count: nat, width: nat): (splits: seq<nat>)
    ensures |splits| == count
    ensures forall t :: 0 <= t < count ==> splits[t] == width
  {
    seq(count, _ => width)
  }

  /** One row per token: `total` adds up the rows its experts returned for it. */
  function SumRows<Y>(flat: seq<Y>, count: nat, topk: nat, total: seq<Y> -> Y): seq<Y>
    requires IsSplit(flat, Uniform(count, topk))
  {
    Map(total, Chunks(flat, Uniform(count, topk)))
  }

  function Gather<T>(s: seq<T>, indices: seq<nat>): (r: seq<T>)
    requires forall p :: 0 <= p < |indices| ==> indices[p] < |s|
    ensures |r| == |indices|
    ensures forall p :: 0 <= p < |indices| ==> r[p] == s[indices[p]]
  {
    seq(|indices|, p requires 0 <= p < |indices| => s[indices[p]])
  }

  /** Token t's assignments, in routing order. */
  function Row<X, W>(input: RankInput<X, W>, t: nat): (row: seq<Assignment<X, W>>)
    requires input.WellShaped() && t < |input.hidden|
    ensures |row| == input.topk
  {
    seq(input.topk, j requires 0 <= j < input.topk =>
      Assignment(input.hidden[t], input.expertIds[t][j], input.weights[t][j]))
  }

  function Rows<X, W>(input: RankInput<X, W>): (rows: seq<seq<Assignment<X, W>>>)
    requires input.WellShaped()
    ensures |rows| == |input.hidden|
    ensures forall t :: 0 <= t < |rows| ==> rows[t] == Row(input, t)
  {
    seq(|input.hidden|, t requires 0 <= t < |input.hidden| => Row(input, t))
  }

  /** All assignments of a rank, flattened row by row. */
  function Assignments<X, W>(input: RankInput<X, W>): seq<Assignment<X, W>>
    requires input.WellShaped()
  {
    Join(Rows(input))
  }

  function RepeatedTokens<X, W>(input: RankInput<X, W>): (rows: seq<seq<X>>)
    ensures |rows| == |input.hidden|
    ensures forall t :: 0 <= t < |rows| ==> rows[t] == seq(input.topk, _ => input.hidden[t])
  {
    seq(|input.hidden|, t requires 0 <= t < |input.hidden| => seq(input.topk, _ => input.hidden[t]))
  }

  /** The rows a rank sends: every token's hidden row once for each expert it is routed to. */
  function Expand<X, W>(input: RankInput<X, W>): seq<X> {
    Join(RepeatedTokens(input))
  }

  /** The three flattened tensors list the fields of the assignments. */
  lemma FlattenedFields<X, W>(input: RankInput<X, W>)
    requires input.WellShaped()
    ensures Expand(input) == Map(TokenOf, Assignments(input))
    ensures Join(input.expertIds) == Map(ExpertOf, Assignments(input))
    ensures Join(input.weights) == Map(WeightOf, Assignments(input))
  {
    MapJoin<Assignment<X, W>, X>(TokenOf, Rows(input));
    MapJoin<Assignment<X, W>, int>(ExpertOf, Rows(input));
    MapJoin<Assignment<X, W>, W>(WeightOf, Rows(input));
    FieldRows(input);
  }

  lemma FieldRows<X, W>(input: RankInput<X, W>)
    requires input.WellShaped()
    ensures RepeatedTokens(input) == MapAll(TokenOf, Rows(input))
    ensures input.expertIds == MapAll(ExpertOf, Rows(input))
    ensures input.weights == MapAll(WeightOf, Rows(input))
  {
    forall t | 0 <= t < |input.hidden|
      ensures RepeatedTokens(input)[t] == Map(TokenOf, Row(input, t))
      ensures input.expertIds[t] == Map(ExpertOf, Row(input, t))
      ensures input.weights[t] == Map(WeightOf, Row(input, t))
    {
    }
  }

  // ----- what the layer means, without any dispatcher

  function RunExpert<X, W, Y>(experts: seq<Expert<X, W, Y>>, a: Assignment<X, W>): Y
    requires experts != []
  {
    experts[if 0 <= a.expert < |experts| then a.expert else 0](a.token, a.weight)
  }

  function Runner<X, W, Y>(experts: seq<Expert<X, W, Y>>): Assignment<X, W> -> Y
    requires experts != []
  {
    a => RunExpert(experts, a)
  }

  /** Each token's sum over its assignments of the assigned expert's output. */
  function Reference<X, W, Y>(input: RankInput<X, W>, experts: seq<Expert<X, W, Y>>, total: seq<Y> -> Y)
    : (result: seq<Y>)
    requires input.WellShaped() && experts != []
    ensures |result| == |input.hidden|
    ensures forall t :: 0 <= t < |result| ==> result[t] == total(Map(Runner(experts), Row(input, t)))
  {
    seq(|input.hidden|, t requires 0 <= t < |input.hidden| => total(Map(Runner(experts), Row(input, t))))
  }

  lemma RowSplits<X, W, Y>(input: RankInput<X, W>, run: Assignment<X, W> -> Y)
    requires input.WellShaped()
    ensures Map(run, Assignments(input)) == Join(MapAll(run, Rows(input)))
    ensures Lengths(MapAll(run, Rows(input))) == Uniform(|input.hidden|, input.topk)
    ensures IsSplit(Map(run, Assignments(input)), Uniform(|input.hidden|, input.topk))
  {
    MapJoin(run, Rows(input));
    assert Lengths(MapAll(run, Rows(input))) == Uniform(|input.hidden|, input.topk);
    JoinSplits(MapAll(run, Rows(input)));
  }

  /** Adding up the rows of all assignments' results gives the layer's formula. */
  lemma RowsOfResults<X, W, Y>(input: RankInput<X, W>, experts: seq<Expert<X, W, Y>>, total: seq<Y> -> Y)
    requires input.WellShaped() && experts != []
    ensures var results := Map(Runner(experts), Assignments(input));
            && IsSplit(results, Uniform(|input.hidden|, input.topk))
            && SumRows(results, |input.hidden|, input.topk, total) == Reference(input, experts, total)
  {
    var rows := MapAll(Runner(experts), Rows(input));
    RowSplits(input, Runner(experts));
    forall t | 0 <= t < |input.hidden|
      ensures Chunk(Join(rows), Uniform(|input.hidden|, input.topk), t) == Map(Runner(experts), Row(input, t))
    {
      ChunkOfJoin(rows, t);
    }
  }

  // ----- expert parallelism disabled

  function LocalOutputs<X, W, Y>(input: RankInput<X, W>, experts: seq<Expert<X, W, Y>>): (outputs: seq<Y>)
    requires input.WellShaped() && experts != []
    ensures outputs == Map(Runner(experts), Assignments(input))
  {
    FlattenedFields(input);
    var tokens, ids, weights := Expand(input), Join(input.expertIds), Join(input.weights);
    seq(|tokens|, i requires 0 <= i < |tokens| => RunExpert(experts, Assignment(tokens[i], ids[i], weights[i])))
  }

  /** `TokenDispatcher`: run every assignment where it is. */
  function LocalForward<X, W, Y>(input: RankInput<X, W>, experts: seq<Expert<X, W, Y>>, total: seq<Y> -> Y): seq<Y>
    requires input.WellShaped() && experts != []
  {
    RowsOfResults(input, experts, total);
    SumRows(LocalOutputs(input, experts), |input.hidden|, input.topk, total)
  }

  /** The simple dispatcher computes the layer. */
  lemma LocalIsReference<X, W, Y>(input: RankInput<X, W>, experts: seq<Expert<X, W, Y>>, total: seq<Y> -> Y)
    requires input.WellShaped() && experts != []
    ensures LocalForward(input, experts, total) == Reference(input, experts, total)
  {
    RowsOfResults(input, experts, total);
  }

  // ----- routing by owner

  /** The positions owned by rank d, in ascending order. */
  function Positions(owners: seq<nat>, d: nat, n: nat): (positions: seq<nat>)
    requires n <= |owners|
    ensures forall p :: 0 <= p < |positions| ==> positions[p] < n && owners[positions[p]] == d
    ensures forall p, q :: 0 <= p < q < |positions| ==> positions[p] < positions[q]
    ensures forall i: nat :: i < n && owners[i] == d ==> i in positions
  {
    if n == 0 then []
    else if owners[n - 1] == d then Positions(owners, d, n - 1) + [n - 1]
    else Positions(owners, d, n - 1)
  }

  function OwnedPositions(owners: seq<nat>, d: nat): seq<nat> {
    Positions(owners, d, |owners|)
  }

  /** How many routes each rank owns. */
  function Bincount(owners: seq<nat>, size: nat): (counts: seq<nat>)
    ensures |counts| == size
    ensures forall d :: 0 <= d < size ==> counts[d] == |OwnedPositions(owners, d)|
  {
    seq(size, d requires 0 <= d < size => |OwnedPositions(owners, d)|)
  }

  function Buckets(owners: seq<nat>, size: nat): (buckets: seq<seq<nat>>)
    ensures |buckets| == size
    ensures forall d :: 0 <= d < size ==> buckets[d] == OwnedPositions(owners, d)
  {
    seq(size, d requires 0 <= d < size => OwnedPositions(owners, d))
  }

  function OwnerKeys(owners: seq<nat>): (keys: seq<Key>)
    ensures |keys| == |owners|
    ensures forall i :: 0 <= i < |owners| ==> keys[i] == Key(owners[i], 0)
  {
    seq(|owners|, i requires 0 <= i < |owners| => Key(owners[i], 0))
  }

  function BucketOrder(owners: seq<nat>, size: nat): seq<nat> {
    Join<nat>(Buckets(owners, size))
  }

  lemma {:induction false} BucketOrderSorts(owners: seq<nat>, size: nat)
    ensures forall p :: 0 <= p < |BucketOrder(owners, size)| ==>
              BucketOrder(owners, size)[p] < |owners| && owners[BucketOrder(owners, size)[p]] < size
    ensures forall i: nat :: i < |owners| && owners[i] < size ==> i in BucketOrder(owners, size)
    ensures forall p, q :: 0 <= p < q < |BucketOrder(owners, size)| ==>
              Before(OwnerKeys(owners), BucketOrder(owners, size)[p], BucketOrder(owners, size)[q])
  {
    if size > 0 {
      BucketOrderSorts(owners, size - 1);
      assert Buckets(owners, size)[..size - 1] == Buckets(owners, size - 1);
      assert BucketOrder(owners, size) == BucketOrder(owners, size - 1) + OwnedPositions(owners, size - 1);
    }
  }

  /** Two sorted lists of the same positions are the same list. */
  lemma {:induction false} OrderIsUnique(keys: seq<Key>, a: seq<nat>, b: seq<nat>, p: nat)
    requires forall i :: 0 <= i < |a| ==> a[i] < |keys|
    requires forall i :: 0 <= i < |b| ==> b[i] < |keys|
    requires forall i, j :: 0 <= i < j < |a| ==> Before(keys, a[i], a[j])
    requires forall i, j :: 0 <= i < j < |b| ==> Before(keys, b[i], b[j])
    requires forall i: nat :: i in a <==> i in b
    requires p <= |a|
    ensures p <= |b| && forall i :: 0 <= i < p ==> a[i] == b[i]
  {
    if p > 0 {
      OrderIsUnique(keys, a, b, p - 1);
      assert a[p - 1] in b;
      var q :| 0 <= q < |b| && b[q] == a[p - 1];
      assert b[p - 1] in a;
      var r :| 0 <= r < |a| && a[r] == b[p - 1];
    }
  }

  /** Stable argsort by owner lists rank 0's positions, then rank 1's, and so on. */
  lemma StableOrderIsBuckets(owners: seq<nat>, size: nat)
    requires forall i :: 0 <= i < |owners| ==> owners[i] < size
    ensures Argsort(owners) == BucketOrder(owners, size)
  {
    var keys, order, joined := OwnerKeys(owners), Argsort(owners), BucketOrder(owners, size);
    BucketOrderSorts(owners, size);
    assert order == StableOrder(keys);
    forall i: nat ensures i in order <==> i in joined {
    }
    OrderIsUnique(keys, order, joined, |order|);
    OrderIsUnique(keys, joined, order, |joined|);
  }

  lemma {:induction false} GatherJoin<T>(s: seq<T>, parts: seq<seq<nat>>, gathered: seq<seq<T>>)
    requires |gathered| == |parts|
    requires forall k, p :: 0 <= k < |parts| && 0 <= p < |parts[k]| ==> parts[k][p] < |s|
    requires forall k :: 0 <= k < |parts| ==> gathered[k] == Gather(s, parts[k])
    ensures forall p :: 0 <= p < |Join<nat>(parts)| ==> Join<nat>(parts)[p] < |s|
    ensures Gather(s, Join<nat>(parts)) == Join(gathered)
  {
    if parts != [] {
      var last := |parts| - 1;
      GatherJoin(s, parts[..last], gathered[..last]);
      assert forall p :: 0 <= p < |parts[last]| ==> parts[last][p] < |s|;
    }
  }

  /** A buffer gathered in owner order splits by the owner counts into each owner's elements. */
  lemma OwnerChunks<T>(flat: seq<T>, owners: seq<nat>, size: nat)
    requires |owners| == |flat|
    requires forall i :: 0 <= i < |owners| ==> owners[i] < size
    ensures var buffer := Gather(flat, Argsort(owners));
            && IsSplit(buffer, Bincount(owners, size))
            && forall d :: 0 <= d < size ==>
                 Chunk(buffer, Bincount(owners, size), d) == Gather(flat, OwnedPositions(owners, d))
  {
    StableOrderIsBuckets(owners, size);
    var parts := Buckets(owners, size);
    var gathered := seq(size, d requires 0 <= d < size => Gather(flat, OwnedPositions(owners, d)));
    GatherJoin(flat, parts, gathered);
    assert Lengths(gathered) == Bincount(owners, size);
    JoinSplits(gathered);
    forall d | 0 <= d < size
      ensures Chunk(Join(gathered), Lengths(gathered), d) == Gather(flat, OwnedPositions(owners, d))
    {
      ChunkOfJoin(gathered, d);
    }
  }

  // ----- expert parallelism enabled

  /** `expert_range`: remembers the expert count and gives this rank's half-open range. */
  class AllToAllTokenDispatcher {
    const size: nat
    const rank: nat
    var numExperts: Option<int>

    constructor (rank: nat, size: nat)
      requires rank < size
      ensures this.rank == rank && this.size == size && numExperts == None
    {
      this.rank, this.size, numExperts := rank, size, None;
    }

    method ExpertRange(count: int) returns (range: Result<(int, int), DispatchError>)
      requires 0 < size
      modifies this`numExperts
      ensures range.Ok? <==> 1 <= count && count % size == 0
      ensures range.Err? ==> range.error == BadExpertCount && numExperts == old(numExperts)
      ensures range.Ok? ==> numExperts == Some(count)
      ensures range.Ok? ==> forall e :: 0 <= e < count ==>
                (range.value.0 <= e < range.value.1 <==> e / (count / size) == rank)
    {
      if count < 1 || count % size != 0 {
        return Err(BadExpertCount);
      }
      numExperts := Some(count);
      var local := count / size;
      var start := rank * local;
      forall e | 0 <= e < count ensures start <= e < start + local <==> e / local == rank {
        OwnedRange(e, local, rank);
      }
      return Ok((start, start + local));
    }
  }

  lemma OwnedRange(e: int, local: int, rank: int)
    requires 0 <= e && 1 <= local
    ensures rank * local <= e < rank * local + local <==> e / local == rank
  {
    var q := e / local;
    assert q * local <= e < q * local + local;
    if q < rank {
      assert (q + 1) * local <= rank * local;
    } else if rank < q {
      assert (rank + 1) * local <= q * local;
    }
  }

  predicate ValidWorld<X, W>(inputs: seq<RankInput<X, W>>, count: int) {
    && 1 <= count && inputs != [] && count % |inputs| == 0
    && forall r :: 0 <= r < |inputs| ==> inputs[r].WellShaped() && InRange(FlatIds(inputs[r]), count)
  }

  function FlatIds<X, W>(input: RankInput<X, W>): seq<int> {
    Join(input.expertIds)
  }

  /** The rank that holds each routed expert, experts being dealt out in equal consecutive blocks. */
  function Owners(ids: seq<int>, count: int, size: nat): (owners: seq<nat>)
    requires 1 <= count && 1 <= size && count % size == 0 && InRange(ids, count)
    ensures |owners| == |ids|
    ensures forall i :: 0 <= i < |ids| ==> owners[i] < size && owners[i] == ids[i] / (count / size)
  {
    OwnersBelow(count, size);
    seq(|ids|, i requires 0 <= i < |ids| => assert 0 <= ids[i] / (count / size) < size; ids[i] / (count / size))
  }

  lemma OwnersBelow(count: int, size: nat)
    requires 1 <= count && 1 <= size && count % size == 0
    ensures 1 <= count / size && count == (count / size) * size
    ensures forall id :: 0 <= id < count ==> 0 <= id / (count / size) < size
  {
    var local := count / size;
    assert count == local * size;
    if local <= 0 {
      MulOrder(local, 0, size);
    }
    forall id | 0 <= id < count ensures 0 <= id / local < size {
      if id / local >= size {
        MulOrder(size, id / local, local);
      }
    }
  }

  lemma MulOrder(a: int, b: int, c: nat)
    requires a <= b
    ensures a * c <= b * c
  {
  }

  lemma OwnRangeFits(count: int, size: nat, d: nat)
    requires 1 <= count && 1 <= size && count % size == 0 && d < size
    ensures 0 <= d * (count / size) <= d * (count / size) + count / size <= count
  {
    OwnersBelow(count, size);
    MulOrder(d + 1, size, count / size);
    MulOrder(0, d, count / size);
  }

  /** The experts rank d holds. */
  function OwnExperts<X, W, Y>(experts: seq<Expert<X, W, Y>>, size: nat, d: nat): (own: seq<Expert<X, W, Y>>)
    requires experts != [] && 1 <= size && |experts| % size == 0 && d < size
    ensures |own| == |experts| / size
  {
    OwnRangeFits(|experts|, size, d);
    var local, start := |experts| / size, d * (|experts| / size);
    experts[start..start + local]
  }

  /** Run the experts a rank holds on the rows it received, by local expert index. */
  function RunOwned<X, W, Y>(own: seq<Expert<X, W, Y>>, tokens: seq<X>, ids: seq<int>, weights: seq<W>): (r: seq<Y>)
    requires |tokens| == |ids| == |weights|
    requires InRange(ids, |own|)
    ensures |r| == |tokens|
    ensures forall i :: 0 <= i < |r| ==> r[i] == own[ids[i]](tokens[i], weights[i])
  {
    seq(|tokens|, i requires 0 <= i < |tokens| => own[ids[i]](tokens[i], weights[i]))
  }

  /** The owner of each of rank r's assignments. */
  function OwnersAt<X, W>(inputs: seq<RankInput<X, W>>, count: int, r: nat): (owners: seq<nat>)
    requires ValidWorld(inputs, count) && r < |inputs|
    ensures |owners| == |FlatIds(inputs[r])| == |Assignments(inputs[r])|
    ensures forall i :: 0 <= i < |owners| ==> owners[i] < |inputs|
  {
    FlattenedFields(inputs[r]);
    Owners(FlatIds(inputs[r]), count, |inputs|)
  }

  function SendCounts<X, W>(inputs: seq<RankInput<X, W>>, count: int): (counts: seq<seq<nat>>)
    requires ValidWorld(inputs, count)
    ensures |counts| == |inputs|
    ensures forall r :: 0 <= r < |inputs| ==> counts[r] == Bincount(OwnersAt(inputs, count, r), |inputs|)
  {
    seq(|inputs|, r requires 0 <= r < |inputs| => Bincount(OwnersAt(inputs, count, r), |inputs|))
  }

  /** A flattened per-rank tensor has one entry per assignment on every rank. */
  predicate PerAssignment<X, W, T>(inputs: seq<RankInput<X, W>>, flat: seq<seq<T>>)
    requires forall r :: 0 <= r < |inputs| ==> inputs[r].WellShaped()
  {
    |flat| == |inputs| && forall r :: 0 <= r < |inputs| ==> |flat[r]| == |Assignments(inputs[r])|
  }

  /** The tensor gathered in owner order on every rank, ready to send. */
  function SendBuffers<X, W, T>(inputs: seq<RankInput<X, W>>, count: int, flat: seq<seq<T>>): (buffers: seq<seq<T>>)
    requires ValidWorld(inputs, count) && PerAssignment(inputs, flat)
    ensures |buffers| == |inputs|
    ensures forall r :: 0 <= r < |inputs| ==> buffers[r] == Gather(flat[r], Argsort(OwnersAt(inputs, count, r)))
    ensures Exchangeable(buffers, SendCounts(inputs, count))
  {
    forall r | 0 <= r < |inputs| {
      OwnerChunks(flat[r], OwnersAt(inputs, count, r), |inputs|);
    }
    seq(|inputs|, r requires 0 <= r < |inputs| => Gather(flat[r], Argsort(OwnersAt(inputs, count, r))))
  }

  /** One exchange of `dispatch`. */
  function Send<X, W, T>(inputs: seq<RankInput<X, W>>, count: int, flat: seq<seq<T>>): (received: seq<seq<T>>)
    requires ValidWorld(inputs, count) && PerAssignment(inputs, flat)
    ensures |received| == |inputs|
  {
    AllToAll(SendBuffers(inputs, count, flat), SendCounts(inputs, count))
  }

  function AllAssignments<X, W>(inputs: seq<RankInput<X, W>>): (flat: seq<seq<Assignment<X, W>>>)
    requires forall r :: 0 <= r < |inputs| ==> inputs[r].WellShaped()
    ensures PerAssignment(inputs, flat)
    ensures forall r :: 0 <= r < |inputs| ==> flat[r] == Assignments(inputs[r])
  {
    seq(|inputs|, r requires 0 <= r < |inputs| => Assignments(inputs[r]))
  }

  /** The assignments each rank holds after `dispatch`. */
  function Routed<X, W>(inputs: seq<RankInput<X, W>>, count: int): (routed: seq<seq<Assignment<X, W>>>)
    requires ValidWorld(inputs, count)
    ensures |routed| == |inputs|
  {
    Send(inputs, count, AllAssignments(inputs))
  }

  function Delivered<X, W>(inputs: seq<RankInput<X, W>>, count: int, r: nat, d: nat): seq<Assignment<X, W>>
    requires ValidWorld(inputs, count) && r < |inputs|
  {
    Gather(Assignments(inputs[r]), OwnedPositions(OwnersAt(inputs, count, r), d))
  }

  function DeliveredParts<X, W>(inputs: seq<RankInput<X, W>>, count: int, d: nat): (parts: seq<seq<Assignment<X, W>>>)
    requires ValidWorld(inputs, count)
    ensures |parts| == |inputs|
    ensures forall r :: 0 <= r < |inputs| ==> parts[r] == Delivered(inputs, count, r, d)
  {
    seq(|inputs|, r requires 0 <= r < |inputs| => Delivered(inputs, count, r, d))
  }

  /** Rank d receives, from rank 0 on upward, exactly the assignments whose expert it owns, each
      sender's in original order. */
  lemma DispatchDelivers<X, W>(inputs: seq<RankInput<X, W>>, count: int, d: nat)
    requires ValidWorld(inputs, count) && d < |inputs|
    ensures Routed(inputs, count)[d] == Join(DeliveredParts(inputs, count, d))
  {
    var buffers, counts := SendBuffers(inputs, count, AllAssignments(inputs)), SendCounts(inputs, count);
    forall r | 0 <= r < |inputs| ensures Chunk(buffers[r], counts[r], d) == Delivered(inputs, count, r, d) {
      OwnerChunks(Assignments(inputs[r]), OwnersAt(inputs, count, r), |inputs|);
    }
    assert ReceivedParts(buffers, counts, d) == DeliveredParts(inputs, count, d);
  }

  lemma DeliveredAreOwned<X, W>(inputs: seq<RankInput<X, W>>, count: int, r: nat, d: nat, a: Assignment<X, W>)
    requires ValidWorld(inputs, count) && r < |inputs| && a in Delivered(inputs, count, r, d)
    ensures 0 <= a.expert < count && a.expert / (count / |inputs|) == d
  {
    FlattenedFields(inputs[r]);
    var positions := OwnedPositions(OwnersAt(inputs, count, r), d);
    var p :| 0 <= p < |positions| && Assignments(inputs[r])[positions[p]] == a;
    assert FlatIds(inputs[r])[positions[p]] == a.expert;
  }

  lemma {:induction false} JoinMember<T>(parts: seq<seq<T>>, x: T) returns (k: nat)
    requires x in Join(parts)
    ensures k < |parts| && x in parts[k]
  {
    var last := |parts| - 1;
    if x in parts[last] {
      k := last;
    } else {
      k := JoinMember(parts[..last], x);
    }
  }

  /** Nothing reaches a rank that does not hold its expert. */
  lemma RoutedAreOwned<X, W>(inputs: seq<RankInput<X, W>>, count: int, d: nat, i: nat)
    requires ValidWorld(inputs, count) && d < |inputs| && i < |Routed(inputs, count)[d]|
    ensures 0 <= Routed(inputs, count)[d][i].expert < count
    ensures 0 <= Routed(inputs, count)[d][i].expert - d * (count / |inputs|) < count / |inputs|
  {
    DispatchDelivers(inputs, count, d);
    var a := Routed(inputs, count)[d][i];
    var r := JoinMember(DeliveredParts(inputs, count, d), a);
    DeliveredAreOwned(inputs, count, r, d, a);
    OwnersBelow(count, |inputs|);
    OwnedRange(a.expert, count / |inputs|, d);
  }

  /** Each exchange of `dispatch` carries one field of the routed assignments. */
  lemma SendField<X, W, T>(
    inputs: seq<RankInput<X, W>>, count: int, flat: seq<seq<T>>, field: Assignment<X, W> -> T)
    requires ValidWorld(inputs, count) && PerAssignment(inputs, flat)
    requires forall r :: 0 <= r < |inputs| ==> flat[r] == Map(field, Assignments(inputs[r]))
    ensures Send(inputs, count, flat) == MapAll(field, Routed(inputs, count))
  {
    var items := SendBuffers(inputs, count, AllAssignments(inputs));
    var buffers := SendBuffers(inputs, count, flat);
    forall r | 0 <= r < |inputs| ensures buffers[r] == Map(field, items[r]) {
      GatherMap(field, Assignments(inputs[r]), Argsort(OwnersAt(inputs, count, r)));
    }
    assert buffers == MapAll(field, items);
    MapExchange(field, items, SendCounts(inputs, count));
  }

  lemma GatherMap<T, U>(f: T -> U, s: seq<T>, indices: seq<nat>)
    requires forall p :: 0 <= p < |indices| ==> indices[p] < |s|
    ensures Gather(Map(f, s), indices) == Map(f, Gather(s, indices))
  {
  }

  function AllTokens<X, W>(inputs: seq<RankInput<X, W>>): (flat: seq<seq<X>>)
    requires forall r :: 0 <= r < |inputs| ==> inputs[r].WellShaped()
    ensures PerAssignment(inputs, flat)
    ensures forall r :: 0 <= r < |inputs| ==> flat[r] == Map(TokenOf, Assignments(inputs[r]))
  {
    forall r | 0 <= r < |inputs| {
      FlattenedFields(inputs[r]);
    }
    seq(|inputs|, r requires 0 <= r < |inputs| => Expand(inputs[r]))
  }

  function AllIds<X, W>(inputs: seq<RankInput<X, W>>): (flat: seq<seq<int>>)
    requires forall r :: 0 <= r < |inputs| ==> inputs[r].WellShaped()
    ensures PerAssignment(inputs, flat)
    ensures forall r :: 0 <= r < |inputs| ==> flat[r] == Map(ExpertOf, Assignments(inputs[r]))
  {
    forall r | 0 <= r < |inputs| {
      FlattenedFields(inputs[r]);
    }
    seq(|inputs|, r requires 0 <= r < |inputs| => FlatIds(inputs[r]))
  }

  function AllWeights<X, W>(inputs: seq<RankInput<X, W>>): (flat: seq<seq<W>>)
    requires forall r :: 0 <= r < |inputs| ==> inputs[r].WellShaped()
    ensures PerAssignment(inputs, flat)
    ensures forall r :: 0 <= r < |inputs| ==> flat[r] == Map(WeightOf, Assignments(inputs[r]))
  {
    forall r | 0 <= r < |inputs| {
      FlattenedFields(inputs[r]);
    }
    seq(|inputs|, r requires 0 <= r < |inputs| => Join(inputs[r].weights))
  }

  datatype Dispatched<X, W> = Dispatched(
    tokens: seq<seq<X>>, ids: seq<seq<int>>, weights: seq<seq<W>>, sendSplits: seq<seq<nat>>, recvSplits: seq<seq<nat>>)

  /** `dispatch` on all ranks together. Expert ids come back relative to the receiving rank's range. */
  function Dispatch<X, W>(inputs: seq<RankInput<X, W>>, count: int): Dispatched<X, W>
    requires ValidWorld(inputs, count)
  {
    var n, send := |inputs|, SendCounts(inputs, count);
    var received := Send(inputs, count, AllIds(inputs));
    CountExchangeTransposes(send);
    Dispatched(
      Send(inputs, count, AllTokens(inputs)),
      seq(n, d requires 0 <= d < n => Map((id: int) => id - d * (count / n), received[d])),
      Send(inputs, count, AllWeights(inputs)),
      send,
      AllToAll(send, seq(n, _ => Ones(n))))
  }

  lemma DispatchedFields<X, W>(inputs: seq<RankInput<X, W>>, count: int)
    requires ValidWorld(inputs, count)
    ensures var sent := Dispatch(inputs, count);
            && sent.sendSplits == SendCounts(inputs, count)
            && sent.recvSplits == Transpose(SendCounts(inputs, count))
            && sent.tokens == MapAll(TokenOf, Routed(inputs, count))
            && sent.weights == MapAll(WeightOf, Routed(inputs, count))
            && |sent.ids| == |inputs|
            && forall d :: 0 <= d < |inputs| ==>
                 && |sent.ids[d]| == |Routed(inputs, count)[d]|
                 && forall i :: 0 <= i < |sent.ids[d]| ==>
                      sent.ids[d][i] == Routed(inputs, count)[d][i].expert - d * (count / |inputs|)
  {
    CountExchangeTransposes(SendCounts(inputs, count));
    SendField<X, W, X>(inputs, count, AllTokens(inputs), TokenOf);
    SendField<X, W, int>(inputs, count, AllIds(inputs), ExpertOf);
    SendField<X, W, W>(inputs, count, AllWeights(inputs), WeightOf);
  }

  lemma DispatchedItem<X, W>(inputs: seq<RankInput<X, W>>, count: int, d: nat, i: nat)
    requires ValidWorld(inputs, count) && d < |inputs| && i < |Routed(inputs, count)[d]|
    ensures var sent, a := Dispatch(inputs, count), Routed(inputs, count)[d][i];
            && |sent.tokens| == |sent.ids| == |sent.weights| == |inputs|
            && |sent.tokens[d]| == |sent.ids[d]| == |sent.weights[d]| == |Routed(inputs, count)[d]|
            && sent.tokens[d][i] == a.token && sent.weights[d][i] == a.weight
            && sent.ids[d][i] == a.expert - d * (count / |inputs|)
            && 0 <= sent.ids[d][i] < count / |inputs| && 0 <= a.expert < count
  {
    DispatchedFields(inputs, count);
    RoutedAreOwned(inputs, count, d, i);
  }

  lemma ReceivedIdsInRange<X, W>(inputs: seq<RankInput<X, W>>, count: int, d: nat)
    requires ValidWorld(inputs, count) && d < |inputs|
    ensures d < |Dispatch(inputs, count).ids| && InRange(Dispatch(inputs, count).ids[d], count / |inputs|)
  {
    DispatchedLengths(inputs, count, d);
    forall i | 0 <= i < |Dispatch(inputs, count).ids[d]|
      ensures 0 <= Dispatch(inputs, count).ids[d][i] < count / |inputs|
    {
      DispatchedItem(inputs, count, d, i);
    }
  }

  /** Rank d's run of the experts it holds, on what `dispatch` gave it. */
  function OwnedOutput<X, W, Y>(inputs: seq<RankInput<X, W>>, experts: seq<Expert<X, W, Y>>, d: nat): (output: seq<Y>)
    requires ValidWorld(inputs, |experts|) && d < |inputs|
    ensures |output| == |Routed(inputs, |experts|)[d]|
  {
    DispatchedLengths(inputs, |experts|, d);
    ReceivedIdsInRange(inputs, |experts|, d);
    var sent := Dispatch(inputs, |experts|);
    RunOwned(OwnExperts(experts, |inputs|, d), sent.tokens[d], sent.ids[d], sent.weights[d])
  }

  lemma OwnedOutputItem<X, W, Y>(inputs: seq<RankInput<X, W>>, experts: seq<Expert<X, W, Y>>, d: nat, i: nat)
    requires ValidWorld(inputs, |experts|) && d < |inputs| && i < |Routed(inputs, |experts|)[d]|
    ensures OwnedOutput(inputs, experts, d)[i] == RunExpert(experts, Routed(inputs, |experts|)[d][i])
  {
    DispatchedItem(inputs, |experts|, d, i);
    ReceivedIdsInRange(inputs, |experts|, d);
    var sent := Dispatch(inputs, |experts|);
    RunOwnedItem(experts, |inputs|, d, sent.tokens[d], sent.ids[d], sent.weights[d], i, Routed(inputs, |experts|)[d][i]);
  }

  lemma RunOwnedItem<X, W, Y>(
    experts: seq<Expert<X, W, Y>>, size: nat, d: nat,
    tokens: seq<X>, ids: seq<int>, weights: seq<W>, i: nat, a: Assignment<X, W>)
    requires experts != [] && 1 <= size && |experts| % size == 0 && d < size
    requires |tokens| == |ids| == |weights| && i < |ids|
    requires InRange(ids, |OwnExperts(experts, size, d)|)
    requires a == Assignment(tokens[i], ids[i] + d * (|experts| / size), weights[i])
    ensures RunOwned(OwnExperts(experts, size, d), tokens, ids, weights)[i] == RunExpert(experts, a)
  {
    OwnRangeFits(|experts|, size, d);
  }

  lemma DispatchedLengths<X, W>(inputs: seq<RankInput<X, W>>, count: int, d: nat)
    requires ValidWorld(inputs, count) && d < |inputs|
    ensures var sent := Dispatch(inputs, count);
            && |sent.tokens| == |sent.ids| == |sent.weights| == |inputs|
            && |sent.tokens[d]| == |sent.ids[d]| == |sent.weights[d]| == |Routed(inputs, count)[d]|
  {
    DispatchedFields(inputs, count);
  }

  /** Every rank runs the experts it holds on what it received. */
  function OwnedOutputs<X, W, Y>(inputs: seq<RankInput<X, W>>, experts: seq<Expert<X, W, Y>>): (outputs: seq<seq<Y>>)
    requires ValidWorld(inputs, |experts|)
    ensures outputs == MapAll(Runner(experts), Routed(inputs, |experts|))
  {
    forall d | 0 <= d < |inputs|
      ensures OwnedOutput(inputs, experts, d) == Map(Runner(experts), Routed(inputs, |experts|)[d])
    {
      forall i | 0 <= i < |Routed(inputs, |experts|)[d]| {
        OwnedOutputItem(inputs, experts, d, i);
      }
    }
    seq(|inputs|, d requires 0 <= d < |inputs| => OwnedOutput(inputs, experts, d))
  }

  // ----- combining

  /** `combine` on one rank after the return exchange: undo the sort, add up each token's rows. */
  function CombineRank<X, W, Y>(
    input: RankInput<X, W>, owners: seq<nat>, returned: seq<Y>, total: seq<Y> -> Y): seq<Y>
    requires |owners| == |returned|
    requires IsSplit(returned, Uniform(|input.hidden|, input.topk))
  {
    SumRows(Gather(returned, Argsort(Argsort(owners))), |input.hidden|, input.topk, total)
  }

  /** Undoing the owner sort after an elementwise map restores the original positions. */
  lemma UnsortMapped<T, Y>(f: T -> Y, flat: seq<T>, owners: seq<nat>)
    requires |owners| == |flat|
    ensures Gather(Map(f, Gather(flat, Argsort(owners))), Argsort(Argsort(owners))) == Map(f, flat)
  {
    var order := Argsort(owners);
    forall i | 0 <= i < |flat| ensures order[Argsort(order)[i]] == i {
      ArgsortInverts(OwnerKeys(owners), order, i);
    }
  }

  /** The return exchange brings every result back to the place its assignment was sent from. */
  lemma ReturnedOutputs<X, W, Y>(inputs: seq<RankInput<X, W>>, experts: seq<Expert<X, W, Y>>)
    requires ValidWorld(inputs, |experts|)
    ensures var outputs, recv := OwnedOutputs(inputs, experts), Dispatch(inputs, |experts|).recvSplits;
            && Exchangeable(outputs, recv)
            && AllToAll(outputs, recv)
               == MapAll(Runner(experts), SendBuffers(inputs, |experts|, AllAssignments(inputs)))
  {
    var buffers, send := SendBuffers(inputs, |experts|, AllAssignments(inputs)), SendCounts(inputs, |experts|);
    DispatchedFields(inputs, |experts|);
    TransposedExchangeReturns(buffers, send);
    MapExchange(Runner(experts), AllToAll(buffers, send), Transpose(send));
  }

  function Returned<X, W, Y>(inputs: seq<RankInput<X, W>>, experts: seq<Expert<X, W, Y>>): (returned: seq<seq<Y>>)
    requires ValidWorld(inputs, |experts|)
    ensures |returned| == |inputs|
    ensures forall r :: 0 <= r < |inputs| ==>
              && |returned[r]| == |OwnersAt(inputs, |experts|, r)|
              && IsSplit(returned[r], Uniform(|inputs[r].hidden|, inputs[r].topk))
  {
    ReturnedOutputs(inputs, experts);
    forall r | 0 <= r < |inputs| {
      RowSplits(inputs[r], Runner(experts));
    }
    AllToAll(OwnedOutputs(inputs, experts), Dispatch(inputs, |experts|).recvSplits)
  }

  /** Rank r's result of the layer. */
  function CombineAt<X, W, Y>(
    inputs: seq<RankInput<X, W>>, experts: seq<Expert<X, W, Y>>, total: seq<Y> -> Y, r: nat): seq<Y>
    requires ValidWorld(inputs, |experts|) && r < |inputs|
  {
    var returned := Returned(inputs, experts)[r];
    CombineRank(inputs[r], OwnersAt(inputs, |experts|, r), returned, total)
  }

  function CombineAll<X, W, Y>(
    inputs: seq<RankInput<X, W>>, experts: seq<Expert<X, W, Y>>, total: seq<Y> -> Y): seq<seq<Y>>
    requires ValidWorld(inputs, |experts|)
  {
    seq(|inputs|, r requires 0 <= r < |inputs| => CombineAt(inputs, experts, total, r))
  }

  predicate AllIdsInRange<X, W>(inputs: seq<RankInput<X, W>>, count: int) {
    forall r :: 0 <= r < |inputs| ==> InRange(FlatIds(inputs[r]), count)
  }

  /** The whole expert-parallel layer: every rank dispatches, runs its own experts, and combines. */
  function ExpertParallelForward<X, W, Y>(
    inputs: seq<RankInput<X, W>>, experts: seq<Expert<X, W, Y>>, total: seq<Y> -> Y)
    : (results: Result<seq<seq<Y>>, DispatchError>)
    requires inputs != [] && forall r :: 0 <= r < |inputs| ==> inputs[r].WellShaped()
  {
    if experts == [] || |experts| % |inputs| != 0 then Err(BadExpertCount)
    else if !AllIdsInRange(inputs, |experts|) then Err(IdsOutOfRange)
    else Ok(CombineAll(inputs, experts, total))
  }

  lemma GatherOfMapAll<T, Y>(f: T -> Y, buffers: seq<seq<T>>, r: nat, flat: seq<T>, owners: seq<nat>)
    requires |owners| == |flat| && r < |buffers|
    requires buffers[r] == Gather(flat, Argsort(owners))
    ensures Gather(MapAll(f, buffers)[r], Argsort(Argsort(owners))) == Map(f, flat)
  {
    UnsortMapped(f, flat, owners);
  }

  lemma CombinedRank<X, W, Y>(
    inputs: seq<RankInput<X, W>>, experts: seq<Expert<X, W, Y>>, total: seq<Y> -> Y, r: nat)
    requires ValidWorld(inputs, |experts|) && r < |inputs|
    ensures CombineAt(inputs, experts, total, r) == Reference(inputs[r], experts, total)
  {
    ReturnedOutputs(inputs, experts);
    GatherOfMapAll(Runner(experts), SendBuffers(inputs, |experts|, AllAssignments(inputs)), r,
                   Assignments(inputs[r]), OwnersAt(inputs, |experts|, r));
    RowsOfResults(inputs[r], experts, total);
  }

  /** Every rank computing its own tokens with no communication at all. */
  function LocalAll<X, W, Y>(
    inputs: seq<RankInput<X, W>>, experts: seq<Expert<X, W, Y>>, total: seq<Y> -> Y): seq<seq<Y>>
    requires experts != [] && forall r :: 0 <= r < |inputs| ==> inputs[r].WellShaped()
  {
    seq(|inputs|, r requires 0 <= r < |inputs| => LocalForward(inputs[r], experts, total))
  }

  lemma ForwardSucceeds<X, W, Y>(
    inputs: seq<RankInput<X, W>>, experts: seq<Expert<X, W, Y>>, total: seq<Y> -> Y)
    requires ValidWorld(inputs, |experts|)
    ensures ExpertParallelForward(inputs, experts, total) == Ok(CombineAll(inputs, experts, total))
  {
    assert AllIdsInRange(inputs, |experts|);
  }

  /** Expert parallelism changes nothing: for any number of ranks, every rank gets the layer's own
      formula on its own tokens, and so what the local dispatcher gives. */
  lemma ExpertParallelRoundTrip<X, W, Y>(
    inputs: seq<RankInput<X, W>>, experts: seq<Expert<X, W, Y>>, total: seq<Y> -> Y)
    requires ValidWorld(inputs, |experts|)
    ensures ExpertParallelForward(inputs, experts, total) == Ok(LocalAll(inputs, experts, total))
  {
    ForwardSucceeds(inputs, experts, total);
    forall r | 0 <= r < |inputs|
      ensures CombineAt(inputs, experts, total, r) == LocalForward(inputs[r], experts, total)
    {
      CombinedRank(inputs, experts, total, r);
      LocalIsReference(inputs[r], experts, total);
    }
    assert CombineAll(inputs, experts, total) == LocalAll(inputs, experts, total);
  }
}
