/** The hand-written backward passes of dsv41_train/cp.py are the exact adjoints of their forward passes. */
module ContextAdjoint {
  import opened Collectives
  import opened ContextParallel

  type Vector = seq<real>

  function Dot(a: Vector, b: Vector): real
    requires |a| == |b|
  {
    if a == [] then 0.0 else Dot(a[..|a| - 1], b[..|b| - 1]) + a[|a| - 1] * b[|b| - 1]
  }

  /** The inner product of what all ranks hold. */
  function TotalDot(xs: seq<Vector>, ys: seq<Vector>): real
    requires |xs| == |ys| && forall r :: 0 <= r < |xs| ==> |xs[r]| == |ys[r]|
  {
    if xs == [] then 0.0 else TotalDot(xs[..|xs| - 1], ys[..|ys| - 1]) + Dot(xs[|xs| - 1], ys[|ys| - 1])
  }

  function Zeros(n: nat): (zeros: Vector)
    ensures |zeros| == n && forall i :: 0 <= i < n ==> zeros[i] == 0.0
  {
    seq(n, _ => 0.0)
  }

  function Add(a: Vector, b: Vector): (sum: Vector)
    requires |a| == |b|
    ensures |sum| == |a| && forall i :: 0 <= i < |a| ==> sum[i] == a[i] + b[i]
  {
    seq(|a|, i requires 0 <= i < |a| => a[i] + b[i])
  }

  lemma {:induction false} DotJoinsHalves(a: Vector, b: Vector, c: Vector, d: Vector)
    requires |a| == |c| && |b| == |d|
    ensures Dot(a + b, c + d) == Dot(a, c) + Dot(b, d)
  {
    if b == [] {
      assert a + b == a && c + d == c;
    } else {
      DotJoinsHalves(a, b[..|b| - 1], c, d[..|d| - 1]);
      assert (a + b)[..|a + b| - 1] == a + b[..|b| - 1];
      assert (c + d)[..|c + d| - 1] == c + d[..|d| - 1];
    }
  }

  lemma {:induction false} DotZeros(x: Vector)
    ensures Dot(x, Zeros(|x|)) == 0.0
  {
    if x != [] {
      DotZeros(x[..|x| - 1]);
      assert Zeros(|x|)[..|x| - 1] == Zeros(|x| - 1);
    }
  }

  lemma {:induction false} DotAdds(x: Vector, a: Vector, b: Vector)
    requires |x| == |a| == |b|
    ensures Dot(x, Add(a, b)) == Dot(x, a) + Dot(x, b)
  {
    if x != [] {
      var n := |x| - 1;
      DotAdds(x[..n], a[..n], b[..n]);
      assert Add(a, b)[..n] == Add(a[..n], b[..n]);
      assert x[n] * (a[n] + b[n]) == x[n] * a[n] + x[n] * b[n];
    }
  }

  // ----- the halo

  /** The gradient with a received one added to its last places. */
  function AddTail(gradient: Vector, received: Vector): (sum: Vector)
    requires |received| <= |gradient|
    ensures |sum| == |gradient|
  {
    gradient[..|gradient| - |received|] + Add(Tail(gradient, |received|), received)
  }

  lemma DotAddTail(x: Vector, gradient: Vector, received: Vector)
    requires |x| == |gradient| && |received| <= |gradient|
    ensures Dot(x, AddTail(gradient, received)) == Dot(x, gradient) + Dot(Tail(x, |received|), received)
  {
    var n := |x| - |received|;
    assert x == x[..n] + Tail(x, |received|);
    assert gradient == gradient[..n] + Tail(gradient, |received|);
    DotJoinsHalves(x[..n], Tail(x, |received|), gradient[..n], Tail(gradient, |received|));
    DotJoinsHalves(x[..n], Tail(x, |received|), gradient[..n], Add(Tail(gradient, |received|), received));
    DotAdds(Tail(x, |received|), Tail(gradient, |received|), received);
  }

  /** The shapes the halo accepts: no halo longer than a shard, and gradients shaped like the outputs. */
  predicate HaloShapes(shards: seq<Vector>, gradients: seq<Vector>, length: nat) {
    && |gradients| == |shards|
    && forall r :: 0 <= r < |shards| ==>
         length <= |shards[r]| && |gradients[r]| == |shards[r]| + if r == 0 then 0 else length
  }

  function PrefixGradient(gradients: seq<Vector>, length: nat, r: nat): (prefix: Vector)
    requires r < |gradients| && (r > 0 ==> length <= |gradients[r]|)
    ensures |prefix| == length
  {
    if r == 0 then Zeros(length) else gradients[r][..length]
  }

  function LocalGradient(gradients: seq<Vector>, length: nat, r: nat): Vector
    requires r < |gradients| && (r > 0 ==> length <= |gradients[r]|)
  {
    if r == 0 then gradients[r] else gradients[r][length..]
  }

  function PrefixGradients(gradients: seq<Vector>, length: nat): (prefixes: seq<Vector>)
    requires forall r :: 0 < r < |gradients| ==> length <= |gradients[r]|
    ensures |prefixes| == |gradients|
    ensures forall r :: 0 <= r < |gradients| ==> prefixes[r] == PrefixGradient(gradients, length, r)
  {
    seq(|gradients|, r requires 0 <= r < |gradients| => PrefixGradient(gradients, length, r))
  }

  /** What rank r makes of the gradient it received. */
  function HaloGradient(gradients: seq<Vector>, length: nat, r: nat, received: Vector): Vector
    requires r < |gradients| && (r > 0 ==> length <= |gradients[r]|)
    requires |received| <= |LocalGradient(gradients, length, r)|
  {
    if r < |gradients| - 1 then AddTail(LocalGradient(gradients, length, r), received)
    else LocalGradient(gradients, length, r)
  }

  lemma HaloReceives(shards: seq<Vector>, gradients: seq<Vector>, length: nat, r: nat)
    requires HaloShapes(shards, gradients, length) && r < |shards|
    ensures RingExchange(PrefixGradients(gradients, length), false)[r]
            == PrefixGradient(gradients, length, Next(r, |shards|))
  {
    RingDelivers(PrefixGradients(gradients, length), false, r);
  }

  /** `_LeftHalo.backward` on rank r. */
  function RankBackward(shards: seq<Vector>, gradients: seq<Vector>, length: nat, r: nat): (result: Vector)
    requires HaloShapes(shards, gradients, length) && r < |shards|
    ensures |result| == |shards[r]|
  {
    HaloReceives(shards, gradients, length, r);
    HaloGradient(gradients, length, r, RingExchange(PrefixGradients(gradients, length), false)[r])
  }

  /** `_LeftHalo.backward` on every rank at once: each rank's halo gradient travels back to its left neighbour. */
  function LeftHaloBackward(shards: seq<Vector>, gradients: seq<Vector>, length: nat): (results: seq<Vector>)
    requires HaloShapes(shards, gradients, length)
    ensures |results| == |shards|
    ensures forall r :: 0 <= r < |shards| ==> |results[r]| == |shards[r]|
  {
    seq(|shards|, r requires 0 <= r < |shards| => RankBackward(shards, gradients, length, r))
  }

  /** The sum of the first k ranks' inner products. */
  function PartialDot(xs: seq<Vector>, ys: seq<Vector>, k: nat): real
    requires k <= |xs| == |ys| && forall r :: 0 <= r < |xs| ==> |xs[r]| == |ys[r]|
  {
    if k == 0 then 0.0 else PartialDot(xs, ys, k - 1) + Dot(xs[k - 1], ys[k - 1])
  }

  lemma {:induction false} TotalIsPartial(xs: seq<Vector>, ys: seq<Vector>, k: nat)
    requires k <= |xs| == |ys| && forall r :: 0 <= r < |xs| ==> |xs[r]| == |ys[r]|
    ensures PartialDot(xs, ys, k) == TotalDot(xs[..k], ys[..k])
  {
    if k > 0 {
      TotalIsPartial(xs, ys, k - 1);
      assert xs[..k][..k - 1] == xs[..k - 1] && ys[..k][..k - 1] == ys[..k - 1];
    }
  }

  /** The inner product that crosses from rank r to rank r + 1. */
  function Crossing(shards: seq<Vector>, gradients: seq<Vector>, length: nat, r: nat): real
    requires HaloShapes(shards, gradients, length) && r + 1 < |shards|
  {
    Dot(Tail(shards[r], length), gradients[r + 1][..length])
  }

  lemma HaloShapesMatch(shards: seq<Vector>, gradients: seq<Vector>, length: nat)
    requires HaloShapes(shards, gradients, length)
    ensures |LeftHaloForward(shards, length)| == |gradients|
    ensures forall r :: 0 <= r < |gradients| ==> |LeftHaloForward(shards, length)[r]| == |gradients[r]|
  {
    forall r: nat | r < |shards| ensures |LeftHaloForward(shards, length)[r]| == |gradients[r]| {
      LeftHaloIsNeighbour(shards, length, r);
    }
  }

  lemma ForwardRank(shards: seq<Vector>, gradients: seq<Vector>, length: nat, r: nat)
    requires HaloShapes(shards, gradients, length) && r < |shards|
    ensures |LeftHaloForward(shards, length)[r]| == |gradients[r]|
    ensures Dot(LeftHaloForward(shards, length)[r], gradients[r])
            == Dot(shards[r], LocalGradient(gradients, length, r))
               + if r == 0 then 0.0 else Crossing(shards, gradients, length, r - 1)
  {
    LeftHaloIsNeighbour(shards, length, r);
    if r > 0 {
      DotJoinsHalves(Tail(shards[r - 1], length), shards[r], gradients[r][..length], gradients[r][length..]);
      assert gradients[r][..length] + gradients[r][length..] == gradients[r];
    }
  }

  lemma BackwardRank(shards: seq<Vector>, gradients: seq<Vector>, length: nat, r: nat)
    requires HaloShapes(shards, gradients, length) && r < |shards|
    ensures Dot(shards[r], LeftHaloBackward(shards, gradients, length)[r])
            == Dot(shards[r], LocalGradient(gradients, length, r))
               + if r + 1 < |shards| then Crossing(shards, gradients, length, r) else 0.0
  {
    hide RingExchange, Dot;
    HaloReceives(shards, gradients, length, r);
    if r + 1 < |shards| {
      DotAddTail(shards[r], LocalGradient(gradients, length, r), gradients[r + 1][..length]);
    }
  }

  lemma {:induction false} HaloPartial(shards: seq<Vector>, gradients: seq<Vector>, length: nat, k: nat)
    requires HaloShapes(shards, gradients, length) && 0 < k <= |shards|
    ensures |LeftHaloForward(shards, length)| == |gradients|
    ensures forall r :: 0 <= r < |gradients| ==> |LeftHaloForward(shards, length)[r]| == |gradients[r]|
    ensures PartialDot(shards, LeftHaloBackward(shards, gradients, length), k)
            == PartialDot(LeftHaloForward(shards, length), gradients, k)
               + if k < |shards| then Crossing(shards, gradients, length, k - 1) else 0.0
  {
    hide LeftHaloForward, LeftHaloBackward, Crossing, Dot, LocalGradient, HaloShapes;
    HaloShapesMatch(shards, gradients, length);
    ForwardRank(shards, gradients, length, k - 1);
    BackwardRank(shards, gradients, length, k - 1);
    if k > 1 {
      HaloPartial(shards, gradients, length, k - 1);
    }
  }

  /** Summed over all ranks, the output's inner product with any gradient is the input's with the backward's. */
  lemma LeftHaloAdjoint(shards: seq<Vector>, gradients: seq<Vector>, length: nat)
    requires HaloShapes(shards, gradients, length)
    ensures |LeftHaloForward(shards, length)| == |gradients|
    ensures forall r :: 0 <= r < |gradients| ==> |LeftHaloForward(shards, length)[r]| == |gradients[r]|
    ensures TotalDot(LeftHaloForward(shards, length), gradients)
            == TotalDot(shards, LeftHaloBackward(shards, gradients, length))
  {
    hide LeftHaloForward, LeftHaloBackward, Crossing, Dot;
    HaloShapesMatch(shards, gradients, length);
    var n, forward, backward := |shards|, LeftHaloForward(shards, length), LeftHaloBackward(shards, gradients, length);
    if n > 0 {
      HaloPartial(shards, gradients, length, n);
    }
    TotalIsPartial(forward, gradients, n);
    TotalIsPartial(shards, backward, n);
    assert forward[..n] == forward && gradients[..n] == gradients && shards[..n] == shards && backward[..n] == backward;
  }

  /** The in-place addition at the end of `_LeftHalo.backward`. */
  method AddReceived(result: array<real>, received: Vector)
    requires |received| <= result.Length
    modifies result
    ensures result[..] == AddTail(old(result[..]), received)
  {
    var base := result.Length - |received|;
    for k := 0 to |received|
      invariant forall i :: 0 <= i < base ==> result[i] == old(result[i])
      invariant forall i :: 0 <= i < k ==> result[base + i] == old(result[base + i]) + received[i]
      invariant forall i :: base + k <= i < result.Length ==> result[i] == old(result[i])
    {
      result[base + k] := result[base + k] + received[k];
    }
    ghost var sum := AddTail(old(result[..]), received);
    forall i | 0 <= i < result.Length ensures result[i] == sum[i] {
      if base <= i {
        assert result[base + (i - base)] == old(result[base + (i - base)]) + received[i - base];
      }
    }
  }

  // ----- the gather

  function EvenSplits(size: nat, m: nat): (splits: seq<nat>)
    ensures |splits| == size && forall d :: 0 <= d < size ==> splits[d] == m
  {
    seq(size, _ => m)
  }

  lemma {:induction false} EvenOffset(size: nat, m: nat, d: nat)
    requires d <= size
    ensures Offset(EvenSplits(size, m), d) == d * m
  {
    if d > 0 {
      EvenOffset(size, m, d - 1);
      assert d * m == (d - 1) * m + m;
    }
  }

  function AllEven(size: nat, m: nat): (splits: seq<seq<nat>>)
    ensures |splits| == size && forall r :: 0 <= r < size ==> splits[r] == EvenSplits(size, m)
  {
    seq(size, _ => EvenSplits(size, m))
  }

  lemma EvenExchangeable(gradients: seq<Vector>, m: nat)
    requires Even(gradients, |gradients| * m)
    ensures Exchangeable(gradients, AllEven(|gradients|, m))
    ensures Transpose(AllEven(|gradients|, m)) == AllEven(|gradients|, m)
  {
    EvenOffset(|gradients|, m, |gradients|);
    forall d | 0 <= d < |gradients| ensures Transpose(AllEven(|gradients|, m))[d] == EvenSplits(|gradients|, m) {
    }
  }

  /** Rank r's share of the gradients every rank has for the gathered tensor. */
  function Shares(gradients: seq<Vector>, m: nat, r: nat): (shares: seq<Vector>)
    requires Even(gradients, |gradients| * m) && r < |gradients|
    ensures |shares| == |gradients| && Even(shares, m)
    ensures Exchangeable(gradients, AllEven(|gradients|, m))
    ensures forall s :: 0 <= s < |gradients| ==> shares[s] == Chunk(gradients[s], EvenSplits(|gradients|, m), r)
  {
    EvenExchangeable(gradients, m);
    ReceivedParts(gradients, AllEven(|gradients|, m), r)
  }

  function AddAll(parts: seq<Vector>, m: nat): (sum: Vector)
    requires Even(parts, m)
    ensures |sum| == m
  {
    if parts == [] then Zeros(m) else Add(AddAll(parts[..|parts| - 1], m), parts[|parts| - 1])
  }

  lemma EvenReceived(gradients: seq<Vector>, m: nat, r: nat)
    requires Even(gradients, |gradients| * m) && r < |gradients|
    ensures Exchangeable(gradients, AllEven(|gradients|, m))
    ensures IsSplit(AllToAll(gradients, AllEven(|gradients|, m))[r], EvenSplits(|gradients|, m))
  {
    hide AllToAll, IsSplit;
    EvenExchangeable(gradients, m);
    TransposedExchangeable(gradients, AllEven(|gradients|, m));
    assert Transpose(AllEven(|gradients|, m))[r] == EvenSplits(|gradients|, m);
  }

  /** What rank r receives, cut into one part per rank. */
  function ReceivedShares(gradients: seq<Vector>, m: nat, r: nat): (shares: seq<Vector>)
    requires Even(gradients, |gradients| * m) && r < |gradients|
    ensures |shares| == |gradients| && Even(shares, m)
  {
    EvenReceived(gradients, m, r);
    Chunks(AllToAll(gradients, AllEven(|gradients|, m))[r], EvenSplits(|gradients|, m))
  }

  /** `_AllGather.backward` on rank r: exchange the gradient's parts, cut what arrives into one part per rank,
      and add them up. */
  function AllGatherBackward(gradients: seq<Vector>, m: nat, r: nat): (result: Vector)
    requires Even(gradients, |gradients| * m) && r < |gradients|
    ensures |result| == m
  {
    AddAll(ReceivedShares(gradients, m, r), m)
  }

  lemma SharesArrive(gradients: seq<Vector>, m: nat, r: nat)
    requires Even(gradients, |gradients| * m) && r < |gradients|
    ensures ReceivedShares(gradients, m, r) == Shares(gradients, m, r)
  {
    hide AllToAll, IsSplit, Even, Transpose, Chunk, Exchangeable;
    var n := |gradients|;
    EvenExchangeable(gradients, m);
    EvenReceived(gradients, m, r);
    TransposedExchangeable(gradients, AllEven(n, m));
    forall s | 0 <= s < n ensures ReceivedShares(gradients, m, r)[s] == Shares(gradients, m, r)[s] {
      ReturnedChunk(gradients, AllEven(n, m), r, s);
    }
  }

  /** Rank s's part of the inner product of the gathered tensor with rank r's gradient. */
  function Cell(shards: seq<Vector>, gradients: seq<Vector>, m: nat, r: nat, s: nat): real
    requires Even(shards, m) && Even(gradients, |gradients| * m) && |shards| == |gradients|
    requires r < |gradients| && s < |gradients|
  {
    EvenExchangeable(gradients, m);
    Dot(shards[s], Chunk(gradients[r], EvenSplits(|gradients|, m), s))
  }

  function RowSum(shards: seq<Vector>, gradients: seq<Vector>, m: nat, r: nat, k: nat): real
    requires Even(shards, m) && Even(gradients, |gradients| * m) && |shards| == |gradients|
    requires r < |gradients| && k <= |gradients|
  {
    if k == 0 then 0.0 else RowSum(shards, gradients, m, r, k - 1) + Cell(shards, gradients, m, r, k - 1)
  }

  function ColumnSum(shards: seq<Vector>, gradients: seq<Vector>, m: nat, s: nat, k: nat): real
    requires Even(shards, m) && Even(gradients, |gradients| * m) && |shards| == |gradients|
    requires s < |gradients| && k <= |gradients|
  {
    if k == 0 then 0.0 else ColumnSum(shards, gradients, m, s, k - 1) + Cell(shards, gradients, m, k - 1, s)
  }

  function ByRows(shards: seq<Vector>, gradients: seq<Vector>, m: nat, rows: nat, columns: nat): real
    requires Even(shards, m) && Even(gradients, |gradients| * m) && |shards| == |gradients|
    requires rows <= |gradients| && columns <= |gradients|
  {
    if rows == 0 then 0.0
    else ByRows(shards, gradients, m, rows - 1, columns) + RowSum(shards, gradients, m, rows - 1, columns)
  }

  function ByColumns(shards: seq<Vector>, gradients: seq<Vector>, m: nat, rows: nat, columns: nat): real
    requires Even(shards, m) && Even(gradients, |gradients| * m) && |shards| == |gradients|
    requires rows <= |gradients| && columns <= |gradients|
  {
    if columns == 0 then 0.0
    else ByColumns(shards, gradients, m, rows, columns - 1) + ColumnSum(shards, gradients, m, columns - 1, rows)
  }

  lemma {:induction false} OneMoreRow(shards: seq<Vector>, gradients: seq<Vector>, m: nat, rows: nat, columns: nat)
    requires Even(shards, m) && Even(gradients, |gradients| * m) && |shards| == |gradients|
    requires rows < |gradients| && columns <= |gradients|
    ensures ByColumns(shards, gradients, m, rows + 1, columns)
            == ByColumns(shards, gradients, m, rows, columns) + RowSum(shards, gradients, m, rows, columns)
  {
    if columns > 0 {
      OneMoreRow(shards, gradients, m, rows, columns - 1);
    }
  }

  lemma {:induction false} NoRows(shards: seq<Vector>, gradients: seq<Vector>, m: nat, columns: nat)
    requires Even(shards, m) && Even(gradients, |gradients| * m) && |shards| == |gradients|
    requires columns <= |gradients|
    ensures ByColumns(shards, gradients, m, 0, columns) == 0.0
  {
    if columns > 0 {
      NoRows(shards, gradients, m, columns - 1);
    }
  }

  /** The order of summation does not matter. */
  lemma {:induction false} SumsSwap(shards: seq<Vector>, gradients: seq<Vector>, m: nat, rows: nat)
    requires Even(shards, m) && Even(gradients, |gradients| * m) && |shards| == |gradients|
    requires rows <= |gradients|
    ensures ByRows(shards, gradients, m, rows, |gradients|) == ByColumns(shards, gradients, m, rows, |gradients|)
  {
    if rows == 0 {
      NoRows(shards, gradients, m, |gradients|);
    } else {
      SumsSwap(shards, gradients, m, rows - 1);
      OneMoreRow(shards, gradients, m, rows - 1, |gradients|);
    }
  }

  /** A row of cells is the inner product of the gathered tensor with that rank's gradient. */
  lemma {:induction false} RowIsDot(shards: seq<Vector>, gradients: seq<Vector>, m: nat, r: nat)
    requires Even(shards, m) && Even(gradients, |gradients| * m) && |shards| == |gradients| && r < |gradients|
    ensures |Join(shards)| == |gradients[r]|
    ensures RowSum(shards, gradients, m, r, |gradients|) == Dot(Join(shards), gradients[r])
  {
    var n := |gradients|;
    EvenExchangeable(gradients, m);
    JoinLength(shards, m);
    RowPrefix(shards, gradients, m, r, n);
    assert shards[..n] == shards && gradients[r][..n * m] == gradients[r];
  }

  lemma {:induction false} RowPrefix(shards: seq<Vector>, gradients: seq<Vector>, m: nat, r: nat, k: nat)
    requires Even(shards, m) && Even(gradients, |gradients| * m) && |shards| == |gradients| && r < |gradients|
    requires k <= |gradients|
    ensures 0 <= k * m <= |gradients[r]| && |Join(shards[..k])| == k * m
    ensures RowSum(shards, gradients, m, r, k) == Dot(Join(shards[..k]), gradients[r][..k * m])
  {
    hide Cell, Even;
    PrefixLength(shards, m, k);
    if k > 0 {
      RowPrefix(shards, gradients, m, r, k - 1);
      CellIsSlice(shards, gradients, m, r, k - 1, (k - 1) * m, k * m);
      DotExtends(Join(shards[..k - 1]), shards[k - 1], gradients[r], (k - 1) * m, k * m);
    }
  }

  lemma PrefixLength(shards: seq<Vector>, m: nat, k: nat)
    requires Even(shards, m) && k <= |shards|
    ensures 0 <= k * m <= |shards| * m && |Join(shards[..k])| == k * m
    ensures k > 0 ==>
              && |shards[k - 1]| == m && k * m == (k - 1) * m + m
              && Join(shards[..k]) == Join(shards[..k - 1]) + shards[k - 1]
  {
    JoinLength(shards[..k], m);
    assert (|shards| - k) * m >= 0;
    if k > 0 {
      assert shards[..k][..k - 1] == shards[..k - 1];
    }
  }

  lemma DotExtends(front: Vector, next: Vector, gradient: Vector, low: nat, high: nat)
    requires |front| == low && |next| == high - low && low <= high <= |gradient|
    ensures Dot(front + next, gradient[..high]) == Dot(front, gradient[..low]) + Dot(next, gradient[low..high])
  {
    assert gradient[..high] == gradient[..low] + gradient[low..high];
    DotJoinsHalves(front, next, gradient[..low], gradient[low..high]);
  }

  lemma CellIsSlice(shards: seq<Vector>, gradients: seq<Vector>, m: nat, r: nat, s: nat, low: nat, high: nat)
    requires Even(shards, m) && Even(gradients, |gradients| * m) && |shards| == |gradients|
    requires r < |gradients| && s < |gradients| && low == s * m && high == low + m
    ensures high <= |gradients[r]|
    ensures Cell(shards, gradients, m, r, s) == Dot(shards[s], gradients[r][low..high])
  {
    hide Dot;
    PartInRange(m, |gradients|, s);
    EvenExchangeable(gradients, m);
    EvenOffset(|gradients|, m, s);
    EvenOffset(|gradients|, m, s + 1);
    assert (s + 1) * m == s * m + m;
  }

  /** A column of cells is the inner product of that rank's shard with its added shares. */
  lemma {:induction false} ColumnIsDot(shards: seq<Vector>, gradients: seq<Vector>, m: nat, s: nat, k: nat)
    requires Even(shards, m) && Even(gradients, |gradients| * m) && |shards| == |gradients| && s < |gradients|
    requires k <= |gradients|
    ensures ColumnSum(shards, gradients, m, s, k) == Dot(shards[s], AddAll(Shares(gradients, m, s)[..k], m))
  {
    hide Shares, Dot;
    var shares := Shares(gradients, m, s);
    if k == 0 {
      DotZeros(shards[s]);
    } else {
      ColumnIsDot(shards, gradients, m, s, k - 1);
      assert shares[..k][..k - 1] == shares[..k - 1];
      DotAdds(shards[s], AddAll(shares[..k - 1], m), shares[k - 1]);
    }
  }

  function Gathered(shards: seq<Vector>): (gathered: seq<Vector>)
    ensures |gathered| == |shards| && forall r :: 0 <= r < |shards| ==> gathered[r] == Join(shards)
  {
    seq(|shards|, _ => Join(shards))
  }

  function AllBackward(gradients: seq<Vector>, m: nat): (results: seq<Vector>)
    requires Even(gradients, |gradients| * m)
    ensures |results| == |gradients| && Even(results, m)
    ensures forall r :: 0 <= r < |gradients| ==> results[r] == AllGatherBackward(gradients, m, r)
  {
    seq(|gradients|, r requires 0 <= r < |gradients| => AllGatherBackward(gradients, m, r))
  }

  lemma {:induction false} RowsAreForward(shards: seq<Vector>, gradients: seq<Vector>, m: nat, k: nat)
    requires Even(shards, m) && Even(gradients, |gradients| * m) && |shards| == |gradients| && k <= |gradients|
    ensures Even(Gathered(shards), |gradients| * m)
    ensures ByRows(shards, gradients, m, k, |gradients|) == PartialDot(Gathered(shards), gradients, k)
  {
    JoinLength(shards, m);
    if k > 0 {
      RowsAreForward(shards, gradients, m, k - 1);
      RowIsDot(shards, gradients, m, k - 1);
    }
  }

  lemma {:induction false} ColumnsAreBackward(shards: seq<Vector>, gradients: seq<Vector>, m: nat, k: nat)
    requires Even(shards, m) && Even(gradients, |gradients| * m) && |shards| == |gradients| && k <= |gradients|
    ensures ByColumns(shards, gradients, m, |gradients|, k) == PartialDot(shards, AllBackward(gradients, m), k)
  {
    hide Dot, AllGatherBackward, ColumnSum;
    if k > 0 {
      ColumnsAreBackward(shards, gradients, m, k - 1);
      ColumnIsBackward(shards, gradients, m, k - 1);
    }
  }

  lemma ColumnIsBackward(shards: seq<Vector>, gradients: seq<Vector>, m: nat, s: nat)
    requires Even(shards, m) && Even(gradients, |gradients| * m) && |shards| == |gradients| && s < |gradients|
    ensures ColumnSum(shards, gradients, m, s, |gradients|) == Dot(shards[s], AllGatherBackward(gradients, m, s))
  {
    hide Dot, ColumnSum, Shares, ReceivedShares, AddAll;
    ColumnIsDot(shards, gradients, m, s, |gradients|);
    SharesArrive(gradients, m, s);
    assert Shares(gradients, m, s)[..|gradients|] == Shares(gradients, m, s);
  }

  /** The gather with its all-to-all backward: the inner products agree, summed over all ranks. */
  lemma AllGatherAdjoint(shards: seq<Vector>, gradients: seq<Vector>, m: nat)
    requires Even(shards, m) && Even(gradients, |gradients| * m) && |shards| == |gradients|
    ensures Even(Gathered(shards), |gradients| * m)
    ensures TotalDot(Gathered(shards), gradients) == TotalDot(shards, AllBackward(gradients, m))
  {
    hide Dot, AllGatherBackward;
    var n, backward := |gradients|, AllBackward(gradients, m);
    RowsAreForward(shards, gradients, m, n);
    ColumnsAreBackward(shards, gradients, m, n);
    SumsSwap(shards, gradients, m, n);
    TotalIsPartial(Gathered(shards), gradients, n);
    TotalIsPartial(shards, backward, n);
    assert Gathered(shards)[..n] == Gathered(shards) && gradients[..n] == gradients;
    assert shards[..n] == shards && backward[..n] == backward;
  }
}