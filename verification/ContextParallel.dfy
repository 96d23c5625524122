/** Sharded attention windows (dsv41_train/cp.py): shards, halos, window indices, masks and packing.

    A tensor is the sequence of its slices along the token dimension. The
    collectives act on the sequence of what every rank holds. */
module ContextParallel {
  import opened Basics
  import opened Wrappers
  import opened Collectives

  datatype ContextError = IndivisibleLength | BadHalo

  // ----- sharding and gathering

  /** Rank r's consecutive part of a tensor, m tokens long. */
  function Part<T>(tensor: seq<T>, m: nat, r: nat): (part: seq<T>)
    requires 0 <= r * m && r * m + m <= |tensor|
    ensures |part| == m && forall q :: 0 <= q < m ==> part[q] == tensor[r * m + q]
  {
    tensor[r * m..r * m + m]
  }

  lemma PartInRange(m: nat, size: nat, r: nat)
    requires r < size
    ensures 0 <= r * m && r * m + m <= size * m && (0 < r ==> m <= r * m)
  {
    assert (size - r - 1) * m >= 0;
    assert size * m == (size - r - 1) * m + r * m + m;
    if 0 < r {
      assert r * m == (r - 1) * m + m && (r - 1) * m >= 0;
    }
  }

  lemma EvenLength(length: nat, size: nat)
    requires 0 < size && length % size == 0
    ensures length == size * (length / size)
  {
  }

  /** `ContextParallel.shard` on rank r. */
  function Shard<T>(tensor: seq<T>, size: nat, r: nat): Result<seq<T>, ContextError>
    requires r < size
  {
    if size == 1 then Ok(tensor)
    else if |tensor| % size != 0 then Err(IndivisibleLength)
    else
      EvenLength(|tensor|, size);
      PartInRange(|tensor| / size, size, r);
      Ok(Part(tensor, |tensor| / size, r))
  }

  function Shards<T>(tensor: seq<T>, size: nat, m: nat): (shards: seq<seq<T>>)
    requires |tensor| == size * m
    ensures |shards| == size && Even(shards, m)
    ensures forall r, q :: 0 <= r < size && 0 <= q < m ==> 0 <= r * m + q < |tensor| && shards[r][q] == tensor[r * m + q]
  {
    forall r: nat | r < size ensures 0 <= r * m && r * m + m <= |tensor| {
      PartInRange(m, size, r);
    }
    seq(size, r requires 0 <= r < size => Part(tensor, m, r))
  }

  lemma ShardIsPart<T>(tensor: seq<T>, size: nat, r: nat)
    requires r < size
    ensures Shard(tensor, size, r).Ok? <==> |tensor| % size == 0
    ensures |tensor| % size == 0 ==>
              && |tensor| == size * (|tensor| / size)
              && Shard(tensor, size, r) == Ok(Shards(tensor, size, |tensor| / size)[r])
  {
    if |tensor| % size == 0 {
      EvenLength(|tensor|, size);
      PartInRange(|tensor| / size, size, r);
      if size == 1 {
        assert Shards(tensor, 1, |tensor|)[0] == tensor;
      }
    }
  }

  /** Every rank's shard has the same length. */
  predicate Even<T>(shards: seq<seq<T>>, m: nat) {
    forall r :: 0 <= r < |shards| ==> |shards[r]| == m
  }

  lemma {:induction false} JoinEven<T>(shards: seq<seq<T>>, m: nat, r: nat, q: nat)
    requires Even(shards, m) && r < |shards| && q < m
    ensures |Join(shards)| == |shards| * m
    ensures 0 <= r * m + q < |Join(shards)| && Join(shards)[r * m + q] == shards[r][q]
  {
    var front := shards[..|shards| - 1];
    JoinLength(shards, m);
    JoinLength(front, m);
    if r < |front| {
      JoinEven(front, m, r, q);
    } else {
      assert r * m == |front| * m;
    }
  }

  lemma {:induction false} JoinLength<T>(shards: seq<seq<T>>, m: nat)
    requires Even(shards, m)
    ensures |Join(shards)| == |shards| * m
  {
    if shards != [] {
      JoinLength(shards[..|shards| - 1], m);
      assert |shards| * m == (|shards| - 1) * m + m;
    }
  }

  /** `gather` puts the shards of a tensor back together. */
  lemma GatherOfShards<T>(tensor: seq<T>, size: nat, m: nat)
    requires |tensor| == size * m
    ensures Join(Shards(tensor, size, m)) == tensor
  {
    var shards := Shards(tensor, size, m);
    JoinLength(shards, m);
    forall i | 0 <= i < |tensor| ensures Join(shards)[i] == tensor[i] {
      Locate(i, m, size);
      JoinEven(shards, m, i / m, i % m);
    }
  }

  /** Every token belongs to one rank's shard. */
  lemma Locate(i: nat, m: nat, size: nat)
    requires i < size * m
    ensures 0 < m && i == (i / m) * m + i % m && i / m < size
  {
    assert m == 0 ==> size * m == 0;
    assert (i / m) * m <= i;
    LessFactor(i / m, size, m);
  }

  // ----- the ring exchange

  function Next(r: nat, n: nat): (next: nat)
    requires r < n
    ensures next < n
  {
    if r + 1 < n then r + 1 else 0
  }

  function Previous(r: nat, n: nat): (previous: nat)
    requires r < n
    ensures previous < n
  {
    if r > 0 then r - 1 else n - 1
  }

  /** All tokens of the buffer are addressed to one rank. */
  function OneHot(n: nat, target: nat, tokens: nat): (splits: seq<nat>)
    ensures |splits| == n && forall d :: 0 <= d < n ==> splits[d] == if d == target then tokens else 0
  {
    seq(n, d => if d == target then tokens else 0)
  }

  lemma {:induction false} OneHotOffset(n: nat, target: nat, tokens: nat, d: nat)
    requires d <= n
    ensures Offset(OneHot(n, target, tokens), d) == if target < d then tokens else 0
  {
    if d > 0 {
      OneHotOffset(n, target, tokens, d - 1);
    }
  }

  /** The input splits of every rank when each sends its buffer to the rank its direction names. */
  function RingSplits<T>(buffers: seq<seq<T>>, forward: bool): (splits: seq<seq<nat>>)
    ensures |splits| == |buffers|
    ensures forall r :: 0 <= r < |buffers| ==>
              splits[r] == OneHot(|buffers|, Target(r, |buffers|, forward), |buffers[r]|)
  {
    seq(|buffers|, r requires 0 <= r < |buffers| => OneHot(|buffers|, Target(r, |buffers|, forward), |buffers[r]|))
  }

  function Target(r: nat, n: nat, forward: bool): (target: nat)
    requires r < n
    ensures target < n
  {
    if forward then Next(r, n) else Previous(r, n)
  }

  lemma RingExchangeable<T>(buffers: seq<seq<T>>, forward: bool)
    ensures Exchangeable(buffers, RingSplits(buffers, forward))
  {
    var n := |buffers|;
    forall r | 0 <= r < n ensures IsSplit(buffers[r], RingSplits(buffers, forward)[r]) {
      OneHotOffset(n, Target(r, n, forward), |buffers[r]|, n);
    }
  }

  /** `_ring_exchange` on every rank at once. */
  function RingExchange<T>(buffers: seq<seq<T>>, forward: bool): (received: seq<seq<T>>)
    ensures |received| == |buffers|
  {
    RingExchangeable(buffers, forward);
    AllToAll(buffers, RingSplits(buffers, forward))
  }

  /** A rank's buffer goes to d exactly if the rank is d's neighbour on the other side. */
  lemma TargetsAreInverse(s: nat, d: nat, n: nat, forward: bool)
    requires s < n && d < n
    ensures Target(s, n, forward) == d <==> s == Target(d, n, !forward)
  {
  }

  /** What each rank says it will receive is what the others address to it, and it receives its neighbour's
      buffer whole. */
  lemma RingDelivers<T>(buffers: seq<seq<T>>, forward: bool, d: nat)
    requires d < |buffers|
    ensures var source := Target(d, |buffers|, !forward);
            && RingExchange(buffers, forward)[d] == buffers[source]
            && Transpose(RingSplits(buffers, forward))[d] == OneHot(|buffers|, source, |buffers[source]|)
  {
    var n := |buffers|;
    var splits, source := RingSplits(buffers, forward), Target(d, n, !forward);
    RingExchangeable(buffers, forward);
    var parts := ReceivedParts(buffers, splits, d);
    forall s | 0 <= s < n ensures parts[s] == if s == source then buffers[s] else [] {
      var target := Target(s, n, forward);
      TargetsAreInverse(s, d, n, forward);
      OneHotOffset(n, target, |buffers[s]|, d);
      OneHotOffset(n, target, |buffers[s]|, d + 1);
    }
    JoinOneHot(parts, source);
  }

  lemma {:induction false} JoinOneHot<T>(parts: seq<seq<T>>, k: nat)
    requires forall s :: 0 <= s < |parts| && s != k ==> parts[s] == []
    ensures Join(parts) == if k < |parts| then parts[k] else []
  {
    if parts != [] {
      JoinOneHot(parts[..|parts| - 1], k);
    }
  }

  // ----- the left halo

  function Tail<T>(s: seq<T>, length: nat): (tail: seq<T>)
    requires length <= |s|
    ensures |tail| == length
  {
    s[|s| - length..]
  }

  function Tails<T>(shards: seq<seq<T>>, length: nat): (tails: seq<seq<T>>)
    requires forall r :: 0 <= r < |shards| ==> length <= |shards[r]|
    ensures |tails| == |shards| && forall r :: 0 <= r < |shards| ==> tails[r] == Tail(shards[r], length)
  {
    seq(|shards|, r requires 0 <= r < |shards| => Tail(shards[r], length))
  }

  /** `_LeftHalo.forward` on every rank at once. */
  function LeftHaloForward<T>(shards: seq<seq<T>>, length: nat): (extended: seq<seq<T>>)
    requires forall r :: 0 <= r < |shards| ==> length <= |shards[r]|
    ensures |extended| == |shards|
  {
    var prefixes := RingExchange(Tails(shards, length), true);
    seq(|shards|, r requires 0 <= r < |shards| => if r == 0 then shards[r] else prefixes[r] + shards[r])
  }

  /** Each rank but the first sees the end of its left neighbour's shard before its own. */
  lemma LeftHaloIsNeighbour<T>(shards: seq<seq<T>>, length: nat, r: nat)
    requires r < |shards| && forall s :: 0 <= s < |shards| ==> length <= |shards[s]|
    ensures LeftHaloForward(shards, length)[r]
            == if r == 0 then shards[0] else Tail(shards[r - 1], length) + shards[r]
  {
    RingDelivers(Tails(shards, length), true, r);
  }

  // ----- window indices

  /** What `ModelContext.build` knows about a row. `size` ranks share it. */
  datatype Row = Row(tokenMask: seq<bool>, sequenceIds: seq<int>)
  {
    predicate Valid() {
      |sequenceIds| == |tokenMask|
    }

    function Length(): nat {
      |tokenMask|
    }
  }

  /** The position `window - 1 - j` tokens before token i, which is before the row's start if negative. */
  function RawKey(i: int, window: int, j: int): int {
    i - (window - 1 - j)
  }

  function Clamp(key: int): nat {
    if key < 0 then 0 else key
  }

  function HaloLength(size: nat, window: nat, m: nat): int {
    if 1 < size && window - 1 <= m then window - 1 else 0
  }

  /** Where rank r finds key j of its local token q in what `gather_attention` returns. */
  function AttentionIndex(size: nat, window: nat, m: nat, r: nat, q: nat, j: nat): int {
    var key := Clamp(RawKey(r * m + q, window, j));
    var halo := HaloLength(size, window, m);
    if halo == 0 then key else key - r * m + if r == 0 then 0 else halo
  }

  /** `gather_attention` on every rank at once: the halo when the window fits into one neighbour's shard, and
      the whole row otherwise. */
  function GatherAttention<T>(shards: seq<seq<T>>, window: nat, m: nat): (gathered: Result<seq<seq<T>>, ContextError>)
    requires Even(shards, m)
    ensures gathered.Ok? ==> |gathered.value| == |shards|
  {
    var halo := HaloLength(|shards|, window, m);
    if halo == 0 then Ok(seq(|shards|, _ => Join(shards)))
    else if halo < 0 || halo > m then Err(BadHalo)
    else Ok(LeftHaloForward(shards, halo))
  }

  /** Only an empty window over several ranks is refused. */
  lemma GatherAttentionAccepts<T>(shards: seq<seq<T>>, window: nat, m: nat)
    requires Even(shards, m)
    ensures GatherAttention(shards, window, m).Ok? <==> 0 < window || |shards| <= 1
  {
  }

  /** Through the halo or through the full gather, every rank reads the same keys: those of the whole row. */
  lemma GatheredKeysAreTheRows<T>(tensor: seq<T>, size: nat, m: nat, window: nat, r: nat, q: nat, j: nat)
    requires |tensor| == size * m && r < size && q < m && j < window
    ensures var gathered := GatherAttention(Shards(tensor, size, m), window, m);
            var key, index := Clamp(RawKey(r * m + q, window, j)), AttentionIndex(size, window, m, r, q, j);
            && gathered.Ok? && key < |tensor|
            && 0 <= index < |gathered.value[r]| && gathered.value[r][index] == tensor[key]
  {
    hide *;
    var shards := Shards(tensor, size, m);
    WindowIsBehind(r * m + q, window, j);
    PartInRange(m, size, r);
    if HaloLength(size, window, m) == 0 {
      GatherOfShards(tensor, size, m);
      FullGather(shards, window, m, r, q, j);
    } else {
      HaloGather(shards, window, m, r, q, j);
      HaloKey(shards, tensor, m, window, r, q, RawKey(r * m + q, window, j));
    }
  }

  lemma WindowIsBehind(i: nat, window: nat, j: nat)
    requires j < window
    ensures i - window < RawKey(i, window, j) <= i && 0 <= Clamp(RawKey(i, window, j)) <= i
  {
  }

  lemma FullGather<T>(shards: seq<seq<T>>, window: nat, m: nat, r: nat, q: nat, j: nat)
    requires Even(shards, m) && r < |shards| && HaloLength(|shards|, window, m) == 0
    ensures GatherAttention(shards, window, m).Ok? && GatherAttention(shards, window, m).value[r] == Join(shards)
    ensures AttentionIndex(|shards|, window, m, r, q, j) == Clamp(RawKey(r * m + q, window, j))
  {
  }

  lemma HaloGather<T>(shards: seq<seq<T>>, window: nat, m: nat, r: nat, q: nat, j: nat)
    requires Even(shards, m) && r < |shards| && HaloLength(|shards|, window, m) != 0 && 0 < window
    ensures 0 < window <= m + 1 && GatherAttention(shards, window, m).Ok?
    ensures GatherAttention(shards, window, m).value[r]
            == if r == 0 then shards[0] else Tail(shards[r - 1], window - 1) + shards[r]
    ensures AttentionIndex(|shards|, window, m, r, q, j)
            == Clamp(RawKey(r * m + q, window, j)) - r * m + if r == 0 then 0 else window - 1
  {
    hide LeftHaloForward, Clamp, RawKey;
    LeftHaloIsNeighbour(shards, window - 1, r);
  }

  lemma ShardAt<T>(tensor: seq<T>, size: nat, m: nat, r: nat, q: nat)
    requires |tensor| == size * m && r < size && q < m
    ensures 0 <= r * m + q < |tensor| && Shards(tensor, size, m)[r][q] == tensor[r * m + q]
  {
    PartInRange(m, size, r);
    var shards := Shards(tensor, size, m);
    assert shards[r][q] == tensor[r * m + q];
  }

  /** Place x of a shard, or of its left neighbour when x is negative, in the shard with the neighbour's tail before it. */
  lemma TailThenOwn<T>(left: seq<T>, own: seq<T>, halo: nat, x: int, value: T)
    requires halo <= |left| && 0 <= x + halo && x < |own|
    requires if x < 0 then left[|left| + x] == value else own[x] == value
    ensures (Tail(left, halo) + own)[x + halo] == value
  {
  }

  lemma LeftOf(r: nat, m: nat)
    requires 0 < r
    ensures (r - 1) * m + m == r * m
  {
  }

  /** A key of a window that fits into one neighbour's shard, found in the neighbour's tail or the own shard. */
  lemma HaloKey<T>(shards: seq<seq<T>>, tensor: seq<T>, m: nat, window: nat, r: nat, q: nat, key: int)
    requires |tensor| == |shards| * m && shards == Shards(tensor, |shards|, m)
    requires r < |shards| && q < m && 0 < window <= m + 1 && r * m + q - window < key <= r * m + q
    ensures var halo := window - 1;
            var extended := if r == 0 then shards[0] else Tail(shards[r - 1], halo) + shards[r];
            var index := Clamp(key) - r * m + if r == 0 then 0 else halo;
            && Clamp(key) < |tensor| && 0 <= index < |extended| && extended[index] == tensor[Clamp(key)]
  {
    hide Shards, Tail;
    PartInRange(m, |shards|, r);
    var x := key - r * m;
    if r == 0 {
      ShardAt(tensor, |shards|, m, 0, Clamp(x));
    } else {
      LeftOf(r, m);
      if x < 0 {
        ShardAt(tensor, |shards|, m, r - 1, m + x);
      } else {
        ShardAt(tensor, |shards|, m, r, x);
      }
      TailThenOwn(shards[r - 1], shards[r], window - 1, x, tensor[key]);
    }
  }

  // ----- masks and positions

  /** The row `forward` hands to `build`: masked tokens belong to no sequence. */
  function Filled(row: Row): (filled: Row)
    requires row.Valid()
    ensures filled.Valid() && filled.Length() == row.Length()
    ensures forall i :: 0 <= i < row.Length() ==>
              filled.sequenceIds[i] == if row.tokenMask[i] then row.sequenceIds[i] else -1
  {
    row.(sequenceIds := seq(row.Length(), i requires 0 <= i < row.Length() =>
      if row.tokenMask[i] then row.sequenceIds[i] else -1))
  }

  /** `attention_mask` for local token q and window place j on rank r. */
  predicate MaskBit(row: Row, m: nat, window: nat, r: nat, q: nat, j: nat)
    requires row.Valid() && 0 <= r * m && r * m + q < row.Length() && j < window
  {
    var i, key := r * m + q, RawKey(r * m + q, window, j);
    && key >= 0 && row.tokenMask[Clamp(key)] && row.tokenMask[i]
    && row.sequenceIds[i] == row.sequenceIds[Clamp(key)]
  }

  /** Causal attention within a window and a sequence, on the unsharded row. */
  predicate Attends(row: Row, window: nat, i: nat, k: nat)
    requires row.Valid() && i < row.Length()
  {
    k <= i < k + window && row.tokenMask[i] && row.tokenMask[k] && row.sequenceIds[i] == row.sequenceIds[k]
  }

  /** Together the ranks' masks are the window mask of the whole row: token i attends to token k exactly if, on
      the rank that holds i, the window has an unmasked place for k, and then there is only one. */
  lemma MasksTogether(row: Row, size: nat, m: nat, window: nat, i: nat, k: nat)
    requires row.Valid() && row.Length() == size * m && i < row.Length()
    ensures 0 < m && i / m < size && i == (i / m) * m + i % m
    ensures Attends(row, window, i, k) <==>
              exists j: nat :: j < window && RawKey(i, window, j) == k && MaskBit(row, m, window, i / m, i % m, j)
    ensures forall j: nat :: j < window && MaskBit(row, m, window, i / m, i % m, j) ==>
              0 <= RawKey(i, window, j) && Attends(row, window, i, RawKey(i, window, j))
    ensures forall j: nat, l: nat :: RawKey(i, window, j) == RawKey(i, window, l) ==> j == l
  {
    Locate(i, m, size);
    if Attends(row, window, i, k) {
      var j := window - 1 - (i - k);
      assert RawKey(i, window, j) == k && MaskBit(row, m, window, i / m, i % m, j);
    }
  }

  predicate Starts(row: Row, i: nat)
    requires row.Valid() && i < row.Length()
  {
    row.tokenMask[i] && row.sequenceIds[i] != if i == 0 then -1 else row.sequenceIds[i - 1]
  }

  /** The running maximum of the start indices up to token i. */
  function LastStart(row: Row, i: nat): nat
    requires row.Valid() && i < row.Length()
  {
    var here := if Starts(row, i) then i else 0;
    if i == 0 then here
    else
      var before := LastStart(row, i - 1);
      if before > here then before else here
  }

  function Position(row: Row, i: nat): int
    requires row.Valid() && i < row.Length()
  {
    if row.tokenMask[i] then i - LastStart(row, i) else 0
  }

  /** The sequence of token i begins at token first: from there on the ids are the same, and before it they differ. */
  predicate BeginsAt(row: Row, first: nat, i: nat)
    requires row.Valid() && i < row.Length()
  {
    && first <= i && row.tokenMask[first] && row.sequenceIds[first] != (if first == 0 then -1 else row.sequenceIds[first - 1])
    && forall t :: first <= t <= i ==> row.sequenceIds[t] == row.sequenceIds[first]
  }

  /** The position of a token is its distance from the first token of its sequence, and masked tokens are at 0. */
  lemma {:induction false} PositionCounts(row: Row, first: nat, i: nat)
    requires row.Valid() && i < row.Length()
    ensures BeginsAt(row, first, i) && row.tokenMask[i] ==> Position(row, i) == i - first
    ensures !row.tokenMask[i] ==> Position(row, i) == 0
  {
    if BeginsAt(row, first, i) {
      LastStartIs(row, first, i);
    }
  }

  lemma {:induction false} LastStartIs(row: Row, first: nat, i: nat)
    requires row.Valid() && i < row.Length() && BeginsAt(row, first, i)
    ensures LastStart(row, i) == first
    decreases i
  {
    LastStartBound(row, first);
    if first < i {
      LastStartIs(row, first, i - 1);
    }
  }

  // ----- packing

  function Runs(batch: nat, length: nat): (runs: seq<seq<int>>)
    ensures |runs| == batch
    ensures forall b, p :: 0 <= b < batch && 0 <= p < length ==> |runs[b]| == length && runs[b][p] == b
    ensures Even(runs, length)
  {
    seq(batch, b => seq(length, _ => b))
  }

  /** `pack_sequences` on a batch of rows of one length: every row becomes a sequence of one long row. The
      rows' attention masks are packed alike. */
  function Packed(masks: seq<seq<bool>>, length: nat): (row: Row)
    requires Even(masks, length)
    ensures row.Valid() && row.Length() == |masks| * length
  {
    JoinLength(masks, length);
    JoinLength(Runs(|masks|, length), length);
    Row(Join(masks), Join(Runs(|masks|, length)))
  }

  lemma PackedAt(masks: seq<seq<bool>>, length: nat, b: nat, p: nat)
    requires Even(masks, length) && b < |masks| && p < length
    ensures 0 <= b * length + p < Packed(masks, length).Length()
    ensures Packed(masks, length).tokenMask[b * length + p] == masks[b][p]
    ensures Packed(masks, length).sequenceIds[b * length + p] == b
  {
    JoinEven(masks, length, b, p);
    JoinEven(Runs(|masks|, length), length, b, p);
  }

  function Alone(mask: seq<bool>): (row: Row)
    ensures row.Valid() && row.Length() == |mask|
  {
    Row(mask, seq(|mask|, _ => 0))
  }

  /** A packed token starts a sequence exactly if it does so in its own row. */
  lemma PackedStarts(masks: seq<seq<bool>>, length: nat, b: nat, p: nat, i: nat)
    requires Even(masks, length) && b < |masks| && p < length && i == b * length + p
    ensures i < Packed(masks, length).Length()
    ensures Starts(Filled(Packed(masks, length)), i) <==> Starts(Filled(Alone(masks[b])), p)
  {
    PackedAt(masks, length, b, p);
    if p > 0 {
      PackedAt(masks, length, b, p - 1);
    } else if b > 0 {
      PackedAt(masks, length, b - 1, length - 1);
      assert i - 1 == (b - 1) * length + (length - 1);
    }
    hide Packed;
  }

  /** Some token of the row comes at or before p. */
  predicate StartedBy(mask: seq<bool>, p: nat)
    requires p < |mask|
  {
    exists q :: 0 <= q <= p && mask[q]
  }

  lemma {:induction false} FirstToken(mask: seq<bool>, p: nat) returns (first: nat)
    requires p < |mask| && StartedBy(mask, p)
    ensures first <= p && mask[first] && (first > 0 ==> !mask[first - 1])
    decreases p
  {
    if p > 0 && StartedBy(mask, p - 1) {
      first := FirstToken(mask, p - 1);
    } else {
      first := p;
    }
  }

  /** Up to place p of one row the same places start a sequence in the other, `base` places further on. */
  ghost predicate StartsAlike(packed: Row, alone: Row, base: nat, p: nat)
    requires packed.Valid() && alone.Valid() && base + p < packed.Length() && p < alone.Length()
  {
    forall q: nat :: q <= p ==> (Starts(packed, base + q) <==> Starts(alone, q))
  }

  lemma {:induction false} LastStartAlike(packed: Row, alone: Row, base: nat, p: nat, first: nat)
    requires packed.Valid() && alone.Valid() && base + p < packed.Length() && p < alone.Length()
    requires StartsAlike(packed, alone, base, p) && first <= p && Starts(alone, first)
    ensures LastStart(packed, base + p) == base + LastStart(alone, p)
    decreases p
  {
    hide Starts;
    LastStartBound(packed, base + p);
    LastStartBound(alone, p);
    if first < p {
      LastStartAlike(packed, alone, base, p - 1, first);
    }
  }

  /** Once a row has started, its last start is found within the row. */
  lemma PackedLastStart(masks: seq<seq<bool>>, length: nat, b: nat, p: nat, i: nat)
    requires Even(masks, length) && b < |masks| && p < length && i == b * length + p
    requires StartedBy(masks[b], p)
    ensures i < Packed(masks, length).Length()
    ensures LastStart(Filled(Packed(masks, length)), i) == b * length + LastStart(Filled(Alone(masks[b])), p)
  {
    hide Packed, Filled, Alone, Starts, StartedBy, LastStart;
    var packed, alone := Filled(Packed(masks, length)), Filled(Alone(masks[b]));
    PackedAt(masks, length, b, p);
    PackedAt(masks, length, b, 0);
    var base := b * length;
    forall q: nat | q <= p ensures base + q < packed.Length() && (Starts(packed, base + q) <==> Starts(alone, q)) {
      PackedStarts(masks, length, b, q, base + q);
    }
    var first := FirstToken(masks[b], p);
    FirstStarts(masks[b], first);
    LastStartAlike(packed, alone, base, p, first);
  }

  lemma FirstStarts(mask: seq<bool>, p: nat)
    requires p < |mask| && mask[p] && (p > 0 ==> !mask[p - 1])
    ensures Starts(Filled(Alone(mask)), p)
  {
  }

  lemma {:induction false} LastStartBound(row: Row, i: nat)
    requires row.Valid() && i < row.Length()
    ensures LastStart(row, i) <= i && (Starts(row, i) ==> LastStart(row, i) == i)
  {
    if i > 0 {
      LastStartBound(row, i - 1);
    }
  }

  /** Packing changes neither positions nor attention: every token has the position it has in its own row, and
      attends exactly to the tokens of its own row that it attends to there. */
  lemma PackingKeepsRows(masks: seq<seq<bool>>, length: nat, window: nat, b: nat, p: nat, c: nat, k: nat)
    requires Even(masks, length) && b < |masks| && p < length && c < |masks| && k < length
    ensures b * length + p < Packed(masks, length).Length()
    ensures Position(Filled(Packed(masks, length)), b * length + p) == Position(Filled(Alone(masks[b])), p)
    ensures Attends(Filled(Packed(masks, length)), window, b * length + p, c * length + k)
            <==> b == c && Attends(Filled(Alone(masks[b])), window, p, k)
  {
    PackedAt(masks, length, b, p);
    if masks[b][p] {
      assert StartedBy(masks[b], p);
      PackedLastStart(masks, length, b, p, b * length + p);
    }
    PackedAt(masks, length, c, k);
    hide Packed, LastStart;
  }
}
