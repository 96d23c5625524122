/** Collectives as functions on the sequence of per-rank buffers. */
module Collectives {

  function Offset(splits: seq<nat>, d: nat): nat
    requires d <= |splits|
  {
    if d == 0 then 0 else Offset(splits, d - 1) + splits[d - 1]
  }

  lemma {:induction false} OffsetMonotone(splits: seq<nat>, d: nat, e: nat)
    requires d <= e <= |splits|
    ensures Offset(splits, d) <= Offset(splits, e)
  {
    if d < e {
      OffsetMonotone(splits, d, e - 1);
    }
  }

  lemma {:induction false} OffsetPrefix(splits: seq<nat>, longer: seq<nat>, d: nat)
    requires d <= |splits| && splits <= longer
    ensures Offset(splits, d) == Offset(longer, d)
  {
    if d > 0 {
      OffsetPrefix(splits, longer, d - 1);
    }
  }

  predicate IsSplit<T>(buffer: seq<T>, splits: seq<nat>) {
    Offset(splits, |splits|) == |buffer|
  }

  /** The slice of a rank's buffer that is addressed to rank d. */
  function Chunk<T>(buffer: seq<T>, splits: seq<nat>, d: nat): (chunk: seq<T>)
    requires IsSplit(buffer, splits) && d < |splits|
    ensures |chunk| == splits[d]
  {
    OffsetMonotone(splits, d + 1, |splits|);
    buffer[Offset(splits, d)..Offset(splits, d + 1)]
  }

  function Join<T>(parts: seq<seq<T>>): seq<T> {
    if parts == [] then [] else Join(parts[..|parts| - 1]) + parts[|parts| - 1]
  }

  function Lengths<T>(parts: seq<seq<T>>): (lengths: seq<nat>)
    ensures |lengths| == |parts|
    ensures forall k :: 0 <= k < |parts| ==> lengths[k] == |parts[k]|
  {
    seq(|parts|, k requires 0 <= k < |parts| => |parts[k]|)
  }

  lemma {:induction false} JoinSplits<T>(parts: seq<seq<T>>)
    ensures IsSplit(Join(parts), Lengths(parts))
  {
    if parts != [] {
      var front := parts[..|parts| - 1];
      JoinSplits(front);
      assert Lengths(front) == Lengths(parts)[..|front|];
      OffsetPrefix(Lengths(front), Lengths(parts), |front|);
    }
  }

  /** Cutting a join by the lengths of its parts gives the parts back. */
  lemma {:induction false} ChunkOfJoin<T>(parts: seq<seq<T>>, k: nat)
    requires k < |parts|
    ensures IsSplit(Join(parts), Lengths(parts))
    ensures Chunk(Join(parts), Lengths(parts), k) == parts[k]
  {
    JoinSplits(parts);
    var front := parts[..|parts| - 1];
    JoinSplits(front);
    assert Lengths(front) == Lengths(parts)[..|front|];
    OffsetPrefix(Lengths(front), Lengths(parts), k);
    if k < |front| {
      ChunkOfJoin(front, k);
      OffsetPrefix(Lengths(front), Lengths(parts), k + 1);
      OffsetMonotone(Lengths(front), k + 1, |front|);
    }
  }

  function Chunks<T>(buffer: seq<T>, splits: seq<nat>): (chunks: seq<seq<T>>)
    requires IsSplit(buffer, splits)
    ensures |chunks| == |splits|
    ensures forall d :: 0 <= d < |splits| ==> chunks[d] == Chunk(buffer, splits, d)
  {
    seq(|splits|, d requires 0 <= d < |splits| => Chunk(buffer, splits, d))
  }

  /** Joining all chunks of a buffer gives the buffer back. */
  lemma {:induction false} JoinOfChunks<T>(buffer: seq<T>, splits: seq<nat>)
    requires IsSplit(buffer, splits)
    ensures Join(Chunks(buffer, splits)) == buffer
    decreases |splits|
  {
    if splits != [] {
      var front := splits[..|splits| - 1];
      OffsetPrefix(front, splits, |front|);
      OffsetMonotone(splits, |front|, |splits|);
      var head := buffer[..Offset(front, |front|)];
      JoinOfChunks(head, front);
      forall d | 0 <= d < |front| ensures Chunk(head, front, d) == Chunk(buffer, splits, d) {
        ChunkOfPrefix(buffer, splits, d);
      }
      assert Chunks(buffer, splits)[..|front|] == Chunks(head, front);
    }
  }

  lemma ChunkOfPrefix<T>(buffer: seq<T>, splits: seq<nat>, d: nat)
    requires IsSplit(buffer, splits) && splits != [] && d < |splits| - 1
    ensures var front := splits[..|splits| - 1];
            && Offset(front, |front|) <= |buffer|
            && IsSplit(buffer[..Offset(front, |front|)], front)
            && Chunk(buffer[..Offset(front, |front|)], front, d) == Chunk(buffer, splits, d)
  {
    var front := splits[..|splits| - 1];
    OffsetPrefix(front, splits, |front|);
    OffsetPrefix(front, splits, d);
    OffsetPrefix(front, splits, d + 1);
    OffsetMonotone(front, d + 1, |front|);
  }

  /** Every rank has a buffer cut into one chunk per rank. */
  predicate Exchangeable<T>(buffers: seq<seq<T>>, splits: seq<seq<nat>>) {
    && |splits| == |buffers|
    && forall s :: 0 <= s < |buffers| ==> |splits[s]| == |buffers| && IsSplit(buffers[s], splits[s])
  }

  function ReceivedParts<T>(buffers: seq<seq<T>>, splits: seq<seq<nat>>, d: nat): (parts: seq<seq<T>>)
    requires Exchangeable(buffers, splits) && d < |buffers|
    ensures |parts| == |buffers|
    ensures forall s :: 0 <= s < |buffers| ==> parts[s] == Chunk(buffers[s], splits[s], d)
  {
    seq(|buffers|, s requires 0 <= s < |buffers| => Chunk(buffers[s], splits[s], d))
  }

  /** `all_to_all_single`: rank d receives its chunk of every rank's buffer, in rank order. */
  function AllToAll<T>(buffers: seq<seq<T>>, splits: seq<seq<nat>>): (received: seq<seq<T>>)
    requires Exchangeable(buffers, splits)
    ensures |received| == |buffers|
    ensures forall d :: 0 <= d < |buffers| ==> received[d] == Join(ReceivedParts(buffers, splits, d))
  {
    seq(|buffers|, d requires 0 <= d < |buffers| => Join(ReceivedParts(buffers, splits, d)))
  }

  function Transpose(splits: seq<seq<nat>>): (transposed: seq<seq<nat>>)
    requires forall s :: 0 <= s < |splits| ==> |splits[s]| == |splits|
    ensures |transposed| == |splits|
    ensures forall d :: 0 <= d < |splits| ==> |transposed[d]| == |splits|
    ensures forall d, s :: 0 <= d < |splits| && 0 <= s < |splits| ==> transposed[d][s] == splits[s][d]
  {
    seq(|splits|, d requires 0 <= d < |splits| => seq(|splits|, s requires 0 <= s < |splits| => splits[s][d]))
  }

  lemma ReceivedLengths<T>(buffers: seq<seq<T>>, splits: seq<seq<nat>>, d: nat)
    requires Exchangeable(buffers, splits) && d < |buffers|
    ensures Lengths(ReceivedParts(buffers, splits, d)) == Transpose(splits)[d]
  {
  }

  lemma TransposedExchangeable<T>(buffers: seq<seq<T>>, splits: seq<seq<nat>>)
    requires Exchangeable(buffers, splits)
    ensures Exchangeable(AllToAll(buffers, splits), Transpose(splits))
  {
    forall d | 0 <= d < |buffers| ensures IsSplit(AllToAll(buffers, splits)[d], Transpose(splits)[d]) {
      ReceivedLengths(buffers, splits, d);
      JoinSplits(ReceivedParts(buffers, splits, d));
    }
  }

  /** What rank d kept from rank s, cut out again, is what rank s addressed to rank d. */
  lemma ReturnedChunk<T>(buffers: seq<seq<T>>, splits: seq<seq<nat>>, d: nat, s: nat)
    requires Exchangeable(buffers, splits) && d < |buffers| && s < |buffers|
    requires IsSplit(AllToAll(buffers, splits)[d], Transpose(splits)[d])
    ensures Chunk(AllToAll(buffers, splits)[d], Transpose(splits)[d], s) == Chunk(buffers[s], splits[s], d)
  {
    ReceivedLengths(buffers, splits, d);
    ChunkOfJoin(ReceivedParts(buffers, splits, d), s);
  }

  /** An exchange followed by the exchange with transposed splits returns every buffer to its sender. */
  lemma TransposedExchangeReturns<T>(buffers: seq<seq<T>>, splits: seq<seq<nat>>)
    requires Exchangeable(buffers, splits)
    ensures Exchangeable(AllToAll(buffers, splits), Transpose(splits))
    ensures AllToAll(AllToAll(buffers, splits), Transpose(splits)) == buffers
  {
    TransposedExchangeable(buffers, splits);
    var received, back := AllToAll(buffers, splits), Transpose(splits);
    forall s | 0 <= s < |buffers| ensures Join(ReceivedParts(received, back, s)) == buffers[s] {
      ReturnedParts(buffers, splits, received, back, s);
      JoinOfChunks(buffers[s], splits[s]);
    }
  }

  lemma ReturnedParts<T>(
    buffers: seq<seq<T>>, splits: seq<seq<nat>>, received: seq<seq<T>>, back: seq<seq<nat>>, s: nat)
    requires Exchangeable(buffers, splits) && s < |buffers|
    requires received == AllToAll(buffers, splits) && back == Transpose(splits)
    requires Exchangeable(received, back)
    ensures ReceivedParts(received, back, s) == Chunks(buffers[s], splits[s])
  {
    forall d | 0 <= d < |buffers| ensures Chunk(received[d], back[d], s) == Chunk(buffers[s], splits[s], d) {
      ReturnedChunk(buffers, splits, d, s);
    }
  }

  // ----- elementwise maps commute with every piece of an exchange

  function Map<T, U>(f: T -> U, s: seq<T>): (r: seq<U>)
    ensures |r| == |s|
    ensures forall i :: 0 <= i < |s| ==> r[i] == f(s[i])
  {
    seq(|s|, i requires 0 <= i < |s| => f(s[i]))
  }

  function MapAll<T, U>(f: T -> U, buffers: seq<seq<T>>): (r: seq<seq<U>>)
    ensures |r| == |buffers|
    ensures forall s :: 0 <= s < |buffers| ==> r[s] == Map(f, buffers[s])
  {
    seq(|buffers|, s requires 0 <= s < |buffers| => Map(f, buffers[s]))
  }

  lemma {:induction false} MapJoin<T, U>(f: T -> U, parts: seq<seq<T>>)
    ensures Map(f, Join(parts)) == Join(MapAll(f, parts))
  {
    if parts != [] {
      var front := parts[..|parts| - 1];
      MapJoin(f, front);
      assert MapAll(f, parts)[..|front|] == MapAll(f, front);
    }
  }

  lemma MapChunk<T, U>(f: T -> U, buffer: seq<T>, splits: seq<nat>, d: nat)
    requires IsSplit(buffer, splits) && d < |splits|
    ensures Chunk(Map(f, buffer), splits, d) == Map(f, Chunk(buffer, splits, d))
  {
    OffsetMonotone(splits, d + 1, |splits|);
  }

  lemma MapExchange<T, U>(f: T -> U, buffers: seq<seq<T>>, splits: seq<seq<nat>>)
    requires Exchangeable(buffers, splits)
    ensures Exchangeable(MapAll(f, buffers), splits)
    ensures AllToAll(MapAll(f, buffers), splits) == MapAll(f, AllToAll(buffers, splits))
  {
    var mapped := MapAll(f, buffers);
    forall d | 0 <= d < |buffers| ensures AllToAll(mapped, splits)[d] == Map(f, AllToAll(buffers, splits)[d]) {
      forall s | 0 <= s < |buffers| ensures Chunk(mapped[s], splits[s], d) == Map(f, Chunk(buffers[s], splits[s], d)) {
        MapChunk(f, buffers[s], splits[s], d);
      }
      assert ReceivedParts(mapped, splits, d) == MapAll(f, ReceivedParts(buffers, splits, d));
      MapJoin(f, ReceivedParts(buffers, splits, d));
    }
  }

  // ----- exchanging one count with every rank

  function Ones(n: nat): (ones: seq<nat>)
    ensures |ones| == n
    ensures forall d :: 0 <= d < n ==> ones[d] == 1
  {
    seq(n, d => 1)
  }

  lemma {:induction false} OnesOffset(n: nat, d: nat)
    requires d <= n
    ensures Offset(Ones(n), d) == d
  {
    if d > 0 {
      OnesOffset(n, d - 1);
    }
  }

  lemma {:induction false} JoinSingletons<T>(parts: seq<seq<T>>, values: seq<T>)
    requires |parts| == |values|
    requires forall k :: 0 <= k < |parts| ==> parts[k] == [values[k]]
    ensures Join(parts) == values
  {
    if parts != [] {
      JoinSingletons(parts[..|parts| - 1], values[..|values| - 1]);
    }
  }

  /** Exchanging equal one-element chunks of the count table transposes it. */
  lemma CountExchangeTransposes(counts: seq<seq<nat>>)
    requires forall s :: 0 <= s < |counts| ==> |counts[s]| == |counts|
    ensures Exchangeable(counts, seq(|counts|, _ => Ones(|counts|)))
    ensures AllToAll(counts, seq(|counts|, _ => Ones(|counts|))) == Transpose(counts)
  {
    var n := |counts|;
    var splits := seq(n, _ => Ones(n));
    OnesOffset(n, n);
    forall d | 0 <= d < n ensures AllToAll(counts, splits)[d] == Transpose(counts)[d] {
      OnesOffset(n, d);
      OnesOffset(n, d + 1);
      forall s | 0 <= s < n ensures ReceivedParts(counts, splits, d)[s] == [counts[s][d]] {
      }
      JoinSingletons(ReceivedParts(counts, splits, d), Transpose(counts)[d]);
    }
  }
}
