/** Rebuilding global tensors from complete rank snapshots (dsv41_train/sft_source.py).

    A tensor is the sequence of its rows; a scalar is one row. Every rank stores
    one piece per tensor: a replica, or its slice of a mesh that shards rows. */
module ShardReassembly {
  import opened Basics
  import opened Sorting
  import opened Wrappers

  datatype Piece<Row> = Piece(start: nat, stop: nat, rows: seq<Row>)

  datatype SourceError = BadShape | BadMesh | MissingMembers | OwnersOverlap | ReplicasDiffer | Misaligned | Uncovered

  /** `_slice` and `_validate_tensor` leave a piece as long as its range. */
  predicate WellFormed<Row>(piece: Piece<Row>) {
    piece.start <= piece.stop && |piece.rows| == piece.stop - piece.start
  }

  // ----- what a complete set of pieces is

  predicate Covers<Row>(piece: Piece<Row>, i: nat) {
    piece.start <= i < piece.stop
  }

  ghost predicate CoveredBySome<Row>(pieces: seq<Piece<Row>>, i: nat) {
    exists k :: 0 <= k < |pieces| && Covers(pieces[k], i)
  }

  /** Pieces that share a row hold the same rows; where only one owner is allowed they are the same piece. */
  ghost predicate Agree<Row>(pieces: seq<Piece<Row>>, exclusive: bool, j: nat, k: nat)
    requires j < |pieces| && k < |pieces|
  {
    (exists i: nat :: Covers(pieces[j], i) && Covers(pieces[k], i)) ==>
      pieces[j] == pieces[k] && (exclusive ==> j == k)
  }

  /** The pieces tile rows 0..n, up to replicas. Pieces without rows do not matter. */
  ghost predicate Tiles<Row>(pieces: seq<Piece<Row>>, exclusive: bool, n: nat) {
    && (forall k :: 0 <= k < |pieces| && pieces[k].start < pieces[k].stop ==> pieces[k].stop <= n)
    && (forall i: nat :: i < n ==> CoveredBySome(pieces, i))
    && (forall j, k :: 0 <= j < |pieces| && 0 <= k < |pieces| ==> Agree(pieces, exclusive, j, k))
  }

  ghost predicate Ordered<Row>(pieces: seq<Piece<Row>>) {
    forall j, k :: 0 <= j < k < |pieces| ==>
      pieces[j].start < pieces[k].start || (pieces[j].start == pieces[k].start && pieces[j].stop <= pieces[k].stop)
  }

  // ----- the pass over sorted pieces

  /** The accepted pieces so far, one for each range. */
  datatype Progress<Row> = Progress(result: seq<Piece<Row>>, cursor: nat)

  ghost predicate Same<Row>(left: seq<Row>, right: seq<Row>) {
    left == right
  }

  /** One step of `_cover`: skip an empty piece, compare a replica, or extend the cover. */
  ghost function Extend<Row>(progress: Progress<Row>, piece: Piece<Row>, exclusive: bool): Result<Progress<Row>, SourceError> {
    var result := progress.result;
    if piece.start == piece.stop then Ok(progress)
    else if result != [] && piece.start == result[|result| - 1].start && piece.stop == result[|result| - 1].stop then
      if exclusive then Err(OwnersOverlap)
      else if !Same(piece.rows, result[|result| - 1].rows) then Err(ReplicasDiffer)
      else Ok(progress)
    else if piece.start != progress.cursor then Err(Misaligned)
    else Ok(Progress(result + [piece], piece.stop))
  }

  ghost function CoverUpTo<Row>(pieces: seq<Piece<Row>>, exclusive: bool, k: nat): Result<Progress<Row>, SourceError>
    requires k <= |pieces|
  {
    if k == 0 then Ok(Progress([], 0))
    else
      match CoverUpTo(pieces, exclusive, k - 1)
      case Err(error) => Err(error)
      case Ok(progress) => Extend(progress, pieces[k - 1], exclusive)
  }

  /** The accepted pieces lie end to end. */
  ghost predicate Chained<Row>(result: seq<Piece<Row>>, cursor: nat) {
    if result == [] then cursor == 0
    else
      var last := result[|result| - 1];
      Chained(result[..|result| - 1], last.start) && last.start < last.stop == cursor
  }

  ghost predicate AmongFirst<Row>(pieces: seq<Piece<Row>>, k: nat, piece: Piece<Row>)
    requires k <= |pieces|
  {
    exists j :: 0 <= j < k && pieces[j] == piece
  }

  /** After k sorted pieces: the accepted ones chain, come from among the k, and every nonempty piece of the k
      is one of them. With a single owner allowed, nonempty pieces follow one another. */
  ghost predicate Progressed<Row>(pieces: seq<Piece<Row>>, exclusive: bool, k: nat, progress: Progress<Row>) {
    && k <= |pieces| && Chained(progress.result, progress.cursor)
    && (forall r :: 0 <= r < |progress.result| ==> AmongFirst(pieces, k, progress.result[r]))
    && (forall j :: 0 <= j < k && pieces[j].start < pieces[j].stop ==>
          AmongFirst(progress.result, |progress.result|, pieces[j]))
    && (exclusive ==> forall i, j :: 0 <= i < j < k && pieces[i].start < pieces[i].stop && pieces[j].start < pieces[j].stop ==>
          pieces[i].stop <= pieces[j].start)
  }

  lemma {:induction false} ChainBounds<Row>(result: seq<Piece<Row>>, cursor: nat)
    requires Chained(result, cursor)
    ensures forall r :: 0 <= r < |result| ==> result[r].start < result[r].stop <= cursor
    ensures forall q, r :: 0 <= q < r < |result| ==> result[q].stop <= result[r].start
    ensures forall i: nat :: i < cursor ==> CoveredBySome(result, i)
  {
    if result != [] {
      var front, last := result[..|result| - 1], result[|result| - 1];
      ChainBounds(front, last.start);
      forall i: nat | i < cursor ensures CoveredBySome(result, i) {
        if i < last.start {
          assert CoveredBySome(front, i);
          var k :| 0 <= k < |front| && Covers(front[k], i);
          assert Covers(result[k], i);
        } else {
          assert Covers(result[|result| - 1], i);
        }
      }
    }
  }

  lemma StillAmong<Row>(pieces: seq<Piece<Row>>, k: nat, l: nat, piece: Piece<Row>)
    requires k <= l <= |pieces| && AmongFirst(pieces, k, piece)
    ensures AmongFirst(pieces, l, piece)
  {
    var j :| 0 <= j < k && pieces[j] == piece;
    assert pieces[j] == piece;
  }

  /** A piece that is skipped leaves the progress as it is. */
  lemma SkipProgresses<Row>(pieces: seq<Piece<Row>>, exclusive: bool, k: nat, progress: Progress<Row>)
    requires k < |pieces| && Progressed(pieces, exclusive, k, progress)
    requires pieces[k].start < pieces[k].stop ==>
               !exclusive && progress.result != [] && pieces[k] == progress.result[|progress.result| - 1]
    requires pieces[k].start <= pieces[k].stop
    ensures Progressed(pieces, exclusive, k + 1, progress)
  {
    var result := progress.result;
    forall r | 0 <= r < |result| ensures AmongFirst(pieces, k + 1, result[r]) {
      StillAmong(pieces, k, k + 1, result[r]);
    }
    forall j | 0 <= j < k + 1 && pieces[j].start < pieces[j].stop ensures AmongFirst(result, |result|, pieces[j]) {
      if j == k {
        assert result[|result| - 1] == pieces[k];
      }
    }
  }

  lemma AppendKeepsAmong<Row>(pieces: seq<Piece<Row>>, k: nat, result: seq<Piece<Row>>)
    requires k < |pieces|
    requires forall r :: 0 <= r < |result| ==> AmongFirst(pieces, k, result[r])
    ensures forall r :: 0 <= r <= |result| ==> AmongFirst(pieces, k + 1, (result + [pieces[k]])[r])
  {
    forall r | 0 <= r <= |result| ensures AmongFirst(pieces, k + 1, (result + [pieces[k]])[r]) {
      if r < |result| {
        StillAmong(pieces, k, k + 1, result[r]);
      }
    }
  }

  lemma AppendKeepsFound<Row>(pieces: seq<Piece<Row>>, k: nat, result: seq<Piece<Row>>)
    requires k < |pieces|
    requires forall j :: 0 <= j < k && pieces[j].start < pieces[j].stop ==> AmongFirst(result, |result|, pieces[j])
    ensures forall j :: 0 <= j <= k && pieces[j].start < pieces[j].stop ==>
              AmongFirst(result + [pieces[k]], |result| + 1, pieces[j])
  {
    var next := result + [pieces[k]];
    forall j | 0 <= j <= k && pieces[j].start < pieces[j].stop ensures AmongFirst(next, |next|, pieces[j]) {
      if j < k {
        var r :| 0 <= r < |result| && result[r] == pieces[j];
        assert next[r] == pieces[j];
      } else {
        assert next[|result|] == pieces[k];
      }
    }
  }

  lemma EarlierEnd<Row>(pieces: seq<Piece<Row>>, k: nat, progress: Progress<Row>)
    requires k < |pieces| && Chained(progress.result, progress.cursor)
    requires forall j :: 0 <= j < k && pieces[j].start < pieces[j].stop ==>
               AmongFirst(progress.result, |progress.result|, pieces[j])
    ensures forall j :: 0 <= j < k && pieces[j].start < pieces[j].stop ==> pieces[j].stop <= progress.cursor
  {
    ChainBounds(progress.result, progress.cursor);
    forall j | 0 <= j < k && pieces[j].start < pieces[j].stop ensures pieces[j].stop <= progress.cursor {
      var r :| 0 <= r < |progress.result| && progress.result[r] == pieces[j];
    }
  }

  /** A piece that begins at the cursor extends the progress. */
  lemma AppendProgresses<Row>(pieces: seq<Piece<Row>>, exclusive: bool, k: nat, progress: Progress<Row>)
    requires k < |pieces| && Progressed(pieces, exclusive, k, progress)
    requires pieces[k].start == progress.cursor && pieces[k].start < pieces[k].stop
    ensures Progressed(pieces, exclusive, k + 1, Progress(progress.result + [pieces[k]], pieces[k].stop))
  {
    hide AmongFirst;
    var result, next := progress.result, progress.result + [pieces[k]];
    assert next[..|next| - 1] == result;
    AppendKeepsAmong(pieces, k, result);
    AppendKeepsFound(pieces, k, result);
    EarlierEnd(pieces, k, progress);
  }

  lemma {:induction false} CoverProgresses<Row>(pieces: seq<Piece<Row>>, exclusive: bool, k: nat)
    requires k <= |pieces| && CoverUpTo(pieces, exclusive, k).Ok?
    requires forall j :: 0 <= j < |pieces| ==> WellFormed(pieces[j])
    ensures Progressed(pieces, exclusive, k, CoverUpTo(pieces, exclusive, k).value)
  {
    hide Progressed;
    if k > 0 {
      CoverProgresses(pieces, exclusive, k - 1);
      var before, piece := CoverUpTo(pieces, exclusive, k - 1).value, pieces[k - 1];
      if piece.start < piece.stop && CoverUpTo(pieces, exclusive, k).value != before {
        AppendProgresses(pieces, exclusive, k - 1, before);
      } else {
        SkipProgresses(pieces, exclusive, k - 1, before);
      }
    } else {
      NothingProgressed(pieces, exclusive);
    }
  }

  lemma NothingProgressed<Row>(pieces: seq<Piece<Row>>, exclusive: bool)
    ensures Progressed(pieces, exclusive, 0, Progress([], 0))
  {
  }

  /** What was accepted tiles what it covers. */
  lemma ProgressTiles<Row>(pieces: seq<Piece<Row>>, exclusive: bool, progress: Progress<Row>)
    requires Progressed(pieces, exclusive, |pieces|, progress)
    requires forall j :: 0 <= j < |pieces| ==> WellFormed(pieces[j])
    ensures Tiles(pieces, exclusive, progress.cursor)
  {
    var result := progress.result;
    ChainBounds(result, progress.cursor);
    forall k | 0 <= k < |pieces| && pieces[k].start < pieces[k].stop ensures pieces[k].stop <= progress.cursor {
      var r :| 0 <= r < |result| && result[r] == pieces[k];
    }
    forall i: nat | i < progress.cursor ensures CoveredBySome(pieces, i) {
      assert CoveredBySome(result, i);
      var r :| 0 <= r < |result| && Covers(result[r], i);
      assert AmongFirst(pieces, |pieces|, result[r]);
      var j :| 0 <= j < |pieces| && pieces[j] == result[r];
      assert Covers(pieces[j], i);
    }
    forall j, k | 0 <= j < |pieces| && 0 <= k < |pieces| ensures Agree(pieces, exclusive, j, k) {
      if i: nat :| Covers(pieces[j], i) && Covers(pieces[k], i) {
        var q :| 0 <= q < |result| && result[q] == pieces[j];
        var r :| 0 <= r < |result| && result[r] == pieces[k];
        assert q == r;
      }
    }
  }

  // ----- completeness

  /** In a tiling, the next sorted piece is never refused. */
  lemma NextAccepted<Row>(pieces: seq<Piece<Row>>, exclusive: bool, n: nat, k: nat, progress: Progress<Row>)
    requires Tiles(pieces, exclusive, n) && Ordered(pieces) && k < |pieces|
    requires forall j :: 0 <= j < |pieces| ==> WellFormed(pieces[j])
    requires Progressed(pieces, exclusive, k, progress)
    ensures Extend(progress, pieces[k], exclusive).Ok?
  {
    var result, piece := progress.result, pieces[k];
    ChainBounds(result, progress.cursor);
    if piece.start < piece.stop {
      if piece.start < progress.cursor {
        assert CoveredBySome(result, piece.start);
        var r :| 0 <= r < |result| && Covers(result[r], piece.start);
        EarlierPiece(pieces, exclusive, k, progress, r);
      } else {
        NotBeyond(pieces, exclusive, n, k, progress);
      }
    }
  }

  /** A piece that begins inside what is accepted equals the last accepted piece. */
  lemma EarlierPiece<Row>(pieces: seq<Piece<Row>>, exclusive: bool, k: nat, progress: Progress<Row>, r: nat)
    requires k < |pieces| && Ordered(pieces) && Progressed(pieces, exclusive, k, progress)
    requires forall j :: 0 <= j < |pieces| ==> Agree(pieces, exclusive, j, k)
    requires r < |progress.result| && Covers(progress.result[r], pieces[k].start) && pieces[k].start < pieces[k].stop
    ensures !exclusive && progress.result[|progress.result| - 1] == pieces[k]
  {
    var result, piece := progress.result, pieces[k];
    ChainBounds(result, progress.cursor);
    assert AmongFirst(pieces, k, result[r]) && AmongFirst(pieces, k, result[|result| - 1]);
    var j :| 0 <= j < k && pieces[j] == result[r];
    assert Agree(pieces, exclusive, j, k);
    assert Covers(pieces[j], piece.start) && Covers(pieces[k], piece.start);
    var l :| 0 <= l < k && pieces[l] == result[|result| - 1];
    assert pieces[l].start <= piece.start;
  }

  /** A nonempty piece never begins beyond the cursor: the row at the cursor belongs to a piece still to come. */
  lemma NotBeyond<Row>(pieces: seq<Piece<Row>>, exclusive: bool, n: nat, k: nat, progress: Progress<Row>)
    requires Tiles(pieces, exclusive, n) && Ordered(pieces) && k < |pieces|
    requires Progressed(pieces, exclusive, k, progress) && pieces[k].start < pieces[k].stop
    ensures pieces[k].start <= progress.cursor
  {
    if progress.cursor < pieces[k].start {
      assert CoveredBySome(pieces, progress.cursor);
      var j :| 0 <= j < |pieces| && Covers(pieces[j], progress.cursor);
      EarlierEnd(pieces, k, progress);
    }
  }

  lemma {:induction false} TilingCovers<Row>(pieces: seq<Piece<Row>>, exclusive: bool, n: nat, k: nat)
    requires Tiles(pieces, exclusive, n) && Ordered(pieces) && k <= |pieces|
    requires forall j :: 0 <= j < |pieces| ==> WellFormed(pieces[j])
    ensures CoverUpTo(pieces, exclusive, k).Ok?
  {
    hide Tiles, Progressed, Extend;
    if k > 0 {
      TilingCovers(pieces, exclusive, n, k - 1);
      CoverProgresses(pieces, exclusive, k - 1);
      NextAccepted(pieces, exclusive, n, k - 1, CoverUpTo(pieces, exclusive, k - 1).value);
    }
  }

  /** The sorted pass accepts exactly the tilings. */
  lemma CoverIffTiles<Row>(pieces: seq<Piece<Row>>, exclusive: bool, n: nat)
    requires Ordered(pieces) && forall j :: 0 <= j < |pieces| ==> WellFormed(pieces[j])
    ensures Tiles(pieces, exclusive, n) <==>
              CoverUpTo(pieces, exclusive, |pieces|).Ok? && CoverUpTo(pieces, exclusive, |pieces|).value.cursor == n
  {
    if Tiles(pieces, exclusive, n) {
      TilingCovers(pieces, exclusive, n, |pieces|);
    }
    if CoverUpTo(pieces, exclusive, |pieces|).Ok? {
      var progress := CoverUpTo(pieces, exclusive, |pieces|).value;
      CoverProgresses(pieces, exclusive, |pieces|);
      ProgressTiles(pieces, exclusive, progress);
      if Tiles(pieces, exclusive, n) {
        TilesOneLength(pieces, exclusive, n, progress.cursor);
        TilesOneLength(pieces, exclusive, progress.cursor, n);
      }
    }
  }

  lemma TilesOneLength<Row>(pieces: seq<Piece<Row>>, exclusive: bool, n: nat, m: nat)
    requires Tiles(pieces, exclusive, n) && Tiles(pieces, exclusive, m)
    ensures n <= m
  {
    if 0 < n {
      assert CoveredBySome(pieces, n - 1);
      var k :| 0 <= k < |pieces| && Covers(pieces[k], n - 1);
    }
  }

  // ----- sorting pieces

  function PieceKeys<Row>(pieces: seq<Piece<Row>>): (keys: seq<Key>)
    ensures |keys| == |pieces|
    ensures forall k :: 0 <= k < |pieces| ==> keys[k] == Key(pieces[k].start, pieces[k].stop)
  {
    seq(|pieces|, k requires 0 <= k < |pieces| => Key(pieces[k].start, pieces[k].stop))
  }

  function SortedPieces<Row>(pieces: seq<Piece<Row>>): (sorted: seq<Piece<Row>>)
    ensures |sorted| == |pieces| && Ordered(sorted)
    ensures forall p :: 0 <= p < |pieces| ==> sorted[p] == pieces[StableOrder(PieceKeys(pieces))[p]]
  {
    var order := StableOrder(PieceKeys(pieces));
    assert forall p, q :: 0 <= p < q < |order| ==> Before(PieceKeys(pieces), order[p], order[q]);
    seq(|pieces|, p requires 0 <= p < |pieces| => pieces[order[p]])
  }

  lemma PlaceOf<Row>(pieces: seq<Piece<Row>>, k: nat) returns (p: nat)
    requires k < |pieces|
    ensures p < |pieces| && StableOrder(PieceKeys(pieces))[p] == k && SortedPieces(pieces)[p] == pieces[k]
  {
    var order := StableOrder(PieceKeys(pieces));
    assert k in order;
    p :| 0 <= p < |order| && order[p] == k;
  }

  lemma PlacesDiffer<Row>(pieces: seq<Piece<Row>>, p: nat, q: nat)
    requires p < q < |pieces|
    ensures StableOrder(PieceKeys(pieces))[p] != StableOrder(PieceKeys(pieces))[q]
  {
    var keys := PieceKeys(pieces);
    assert Before(keys, StableOrder(keys)[p], StableOrder(keys)[q]);
  }

  /** Whether pieces tile the tensor does not depend on their order. */
  lemma SortingKeepsTiling<Row>(pieces: seq<Piece<Row>>, exclusive: bool, n: nat)
    ensures Tiles(SortedPieces(pieces), exclusive, n) <==> Tiles(pieces, exclusive, n)
  {
    var order, sorted := StableOrder(PieceKeys(pieces)), SortedPieces(pieces);
    if Tiles(pieces, exclusive, n) {
      forall i: nat | i < n ensures CoveredBySome(sorted, i) {
        assert CoveredBySome(pieces, i);
        var k :| 0 <= k < |pieces| && Covers(pieces[k], i);
        var p := PlaceOf(pieces, k);
        assert Covers(sorted[p], i);
      }
      forall j, k | 0 <= j < |sorted| && 0 <= k < |sorted| ensures Agree(sorted, exclusive, j, k) {
        assert Agree(pieces, exclusive, order[j], order[k]);
        if j < k {
          PlacesDiffer(pieces, j, k);
        } else if k < j {
          PlacesDiffer(pieces, k, j);
        }
      }
    }
    if Tiles(sorted, exclusive, n) {
      UnsortedTiles(pieces, exclusive, n);
    }
  }

  lemma UnsortedTiles<Row>(pieces: seq<Piece<Row>>, exclusive: bool, n: nat)
    requires Tiles(SortedPieces(pieces), exclusive, n)
    ensures Tiles(pieces, exclusive, n)
  {
    var order, sorted := StableOrder(PieceKeys(pieces)), SortedPieces(pieces);
    forall i: nat | i < n ensures CoveredBySome(pieces, i) {
      assert CoveredBySome(sorted, i);
      var p :| 0 <= p < |sorted| && Covers(sorted[p], i);
      assert Covers(pieces[order[p]], i);
    }
    forall k | 0 <= k < |pieces| && pieces[k].start < pieces[k].stop ensures pieces[k].stop <= n {
      var p := PlaceOf(pieces, k);
    }
    forall j, k | 0 <= j < |pieces| && 0 <= k < |pieces| ensures Agree(pieces, exclusive, j, k) {
      var p := PlaceOf(pieces, j);
      var q := PlaceOf(pieces, k);
      assert Agree(sorted, exclusive, p, q);
    }
  }

  // ----- the methods

  ghost predicate Rebuilt<Row>(pieces: seq<Piece<Row>>, result: seq<Piece<Row>>, n: nat) {
    && Chained(result, n)
    && (forall r :: 0 <= r < |result| ==> AmongFirst(pieces, |pieces|, result[r]))
    && (forall k :: 0 <= k < |pieces| && pieces[k].start < pieces[k].stop ==> AmongFirst(result, |result|, pieces[k]))
  }

  /** `_cover`: accept exactly the pieces that tile the tensor, keeping one of every range. */
  method Cover<Row(==)>(pieces: seq<Piece<Row>>, exclusive: bool, n: nat)
    returns (outcome: Result<seq<Piece<Row>>, SourceError>)
    requires forall k :: 0 <= k < |pieces| ==> WellFormed(pieces[k])
    ensures outcome.Ok? <==> Tiles(pieces, exclusive, n)
    ensures outcome.Ok? ==> Rebuilt(pieces, outcome.value, n)
  {
    var sorted := SortedPieces(pieces);
    SortedWellFormed(pieces);
    SortingKeepsTiling(pieces, exclusive, n);
    CoverIffTiles(sorted, exclusive, n);
    outcome := CoverSorted(sorted, exclusive, n);
    if outcome.Ok? {
      CoverProgresses(sorted, exclusive, |sorted|);
      SortedRebuilt(pieces, exclusive, n, outcome.value);
    }
  }

  lemma SortedWellFormed<Row>(pieces: seq<Piece<Row>>)
    requires forall k :: 0 <= k < |pieces| ==> WellFormed(pieces[k])
    ensures forall k :: 0 <= k < |pieces| ==> WellFormed(SortedPieces(pieces)[k])
  {
    forall k | 0 <= k < |pieces| ensures WellFormed(SortedPieces(pieces)[k]) {
      assert WellFormed(pieces[StableOrder(PieceKeys(pieces))[k]]);
    }
  }

  lemma SortedRebuilt<Row>(pieces: seq<Piece<Row>>, exclusive: bool, n: nat, result: seq<Piece<Row>>)
    requires Progressed(SortedPieces(pieces), exclusive, |pieces|, Progress(result, n))
    ensures Rebuilt(pieces, result, n)
  {
    var order, sorted := StableOrder(PieceKeys(pieces)), SortedPieces(pieces);
    forall r | 0 <= r < |result| ensures AmongFirst(pieces, |pieces|, result[r]) {
      assert AmongFirst(sorted, |pieces|, result[r]);
      var p :| 0 <= p < |pieces| && sorted[p] == result[r];
      assert pieces[order[p]] == result[r];
    }
    forall k | 0 <= k < |pieces| && pieces[k].start < pieces[k].stop ensures AmongFirst(result, |result|, pieces[k]) {
      var p := PlaceOf(pieces, k);
      assert AmongFirst(result, |result|, sorted[p]);
    }
  }

  lemma {:induction false} ErrorStays<Row>(pieces: seq<Piece<Row>>, exclusive: bool, k: nat, l: nat)
    requires k <= l <= |pieces| && CoverUpTo(pieces, exclusive, k).Err?
    ensures CoverUpTo(pieces, exclusive, l) == CoverUpTo(pieces, exclusive, k)
  {
    if k < l {
      ErrorStays(pieces, exclusive, k, l - 1);
    }
  }

  /** The loop over the sorted pieces. */
  method CoverSorted<Row(==)>(pieces: seq<Piece<Row>>, exclusive: bool, n: nat)
    returns (outcome: Result<seq<Piece<Row>>, SourceError>)
    ensures outcome.Ok? <==>
              CoverUpTo(pieces, exclusive, |pieces|).Ok? && CoverUpTo(pieces, exclusive, |pieces|).value.cursor == n
    ensures outcome.Ok? ==> CoverUpTo(pieces, exclusive, |pieces|).value.result == outcome.value
  {
    var result, cursor := [], 0;
    for k := 0 to |pieces|
      invariant CoverUpTo(pieces, exclusive, k) == Ok(Progress(result, cursor))
    {
      var piece := pieces[k];
      if piece.start != piece.stop {
        var error: Option<SourceError> := None;
        if result != [] && piece.start == result[|result| - 1].start && piece.stop == result[|result| - 1].stop {
          if exclusive {
            error := Some(OwnersOverlap);
          } else if piece.rows != result[|result| - 1].rows {
            error := Some(ReplicasDiffer);
          }
        } else if piece.start != cursor {
          error := Some(Misaligned);
        } else {
          result, cursor := result + [piece], piece.stop;
        }
        if error.Some? {
          ErrorStays(pieces, exclusive, k + 1, |pieces|);
          return Err(error.value);
        }
      }
    }
    if cursor != n {
      return Err(Uncovered);
    }
    return Ok(result);
  }

  /** The piece's rows lie at its range of the tensor. */
  ghost predicate Placed<Row>(tensor: seq<Row>, piece: Piece<Row>) {
    piece.stop <= |tensor| && WellFormed(piece) && forall i :: piece.start <= i < piece.stop ==> tensor[i] == piece.rows[i - piece.start]
  }

  /** `copy_tensor`: every row of every piece reaches its place. */
  method CopyTensor<Row>(pieces: seq<Piece<Row>>, n: nat, chunkBytes: nat, rowBytes: nat, destination: array<Row>)
    requires Chained(pieces, n) && destination.Length == n
    requires forall k :: 0 <= k < |pieces| ==> WellFormed(pieces[k])
    modifies destination
    ensures forall k :: 0 <= k < |pieces| ==> Placed(destination[..], pieces[k])
  {
    ChainBounds(pieces, n);
    var perRow := if rowBytes < 1 then 1 else rowBytes;
    var width := if chunkBytes / perRow < 1 then 1 else chunkBytes / perRow;
    for k := 0 to |pieces|
      invariant forall j :: 0 <= j < k ==> Placed(destination[..], pieces[j])
    {
      ghost var before := destination[..];
      CopyPiece(pieces[k], width, destination);
      forall j | 0 <= j < k ensures Placed(destination[..], pieces[j]) {
        assert Placed(before, pieces[j]);
      }
    }
  }

  /** The chunk loop of `_chunks`. */
  method CopyPiece<Row>(piece: Piece<Row>, width: nat, destination: array<Row>)
    requires WellFormed(piece) && piece.stop <= destination.Length && 1 <= width
    modifies destination
    ensures Placed(destination[..], piece)
    ensures forall i :: 0 <= i < destination.Length && !(piece.start <= i < piece.stop) ==> destination[i] == old(destination[i])
  {
    var start := piece.start;
    while start < piece.stop
      invariant piece.start <= start <= piece.stop
      invariant forall i :: piece.start <= i < start ==> destination[i] == piece.rows[i - piece.start]
      invariant forall i :: 0 <= i < destination.Length && !(piece.start <= i < piece.stop) ==> destination[i] == old(destination[i])
    {
      var stop := if start + width < piece.stop then start + width else piece.stop;
      for i := start to stop
        invariant forall l :: piece.start <= l < i ==> destination[l] == piece.rows[l - piece.start]
        invariant forall l :: 0 <= l < destination.Length && !(piece.start <= l < piece.stop) ==> destination[l] == old(destination[l])
      {
        destination[i] := piece.rows[i - piece.start];
      }
      start := stop;
    }
  }

  // ----- what the ranks saved

  /** A tensor without a mesh is whole; on a mesh it is a replica, or sharded by rows in ceil-width slices. */
  datatype Layout = Whole | Mesh(members: seq<nat>, sharded: bool)

  /** A rank holds, of the rows offset.. that it owns with others, what its layout says. */
  datatype Holder = Holder(offset: nat, count: nat, layout: Layout)

  /** Into how many slices the owned rows are cut. */
  function Parts(layout: Layout): nat {
    if layout.Mesh? && layout.sharded then |layout.members| else 1
  }

  function IndexIn(members: seq<nat>, rank: nat): (p: nat)
    requires rank in members
    ensures p < |members| && members[p] == rank
  {
    if members[0] == rank then 0 else 1 + IndexIn(members[1..], rank)
  }

  function Width(count: nat, parts: nat): (width: nat)
    requires 0 < parts
    ensures count <= width * parts
  {
    var width := (count + parts - 1) / parts;
    CeilingEnough(count, parts, width);
    width
  }

  lemma CeilingEnough(count: nat, parts: nat, width: nat)
    requires 0 < parts && width == (count + parts - 1) / parts
    ensures count <= width * parts
  {
    assert width * parts + (count + parts - 1) % parts == count + parts - 1;
  }

  function Least(a: nat, b: nat): nat {
    if a < b then a else b
  }

  /** The part of the owned rows that slice p holds. */
  function SliceStart(count: nat, parts: nat, p: nat): (start: nat)
    requires p < parts
    ensures start <= count
  {
    Least(count, p * Width(count, parts))
  }

  function SliceStop(count: nat, parts: nat, p: nat): (stop: nat)
    requires p < parts
    ensures SliceStart(count, parts, p) <= stop <= count
  {
    Least(count, SliceStart(count, parts, p) + Width(count, parts))
  }

  datatype MeshKey = MeshKey(offset: nat, count: nat, members: seq<nat>, sharded: bool)

  /** The layouts of one tensor as the ranks' files are read. */
  class LayoutReader {
    const world: nat
    var meshes: map<MeshKey, set<nat>>

    constructor (world: nat)
      ensures this.world == world && meshes == map[]
    {
      this.world, meshes := world, map[];
    }

    /** `_slice`: the rows rank holds. Every mesh remembers the members it has seen. */
    method Slice(rank: nat, holder: Holder, localRows: nat) returns (range: Result<(nat, nat), SourceError>)
      modifies this
      ensures range.Ok? <==>
                && ValidLayout(world, rank, holder.layout)
                && localRows == HeldStop(rank, holder) - HeldStart(rank, holder)
      ensures range.Err? ==> range.error != MissingMembers
      ensures range.Ok? ==> range.value == (holder.offset + HeldStart(rank, holder), holder.offset + HeldStop(rank, holder))
      ensures ValidLayout(world, rank, holder.layout) && holder.layout.Mesh? ==>
                meshes == old(meshes)[KeyOf(holder) := Seen(old(meshes), KeyOf(holder)) + {rank}]
      ensures !ValidLayout(world, rank, holder.layout) || holder.layout.Whole? ==> meshes == old(meshes)
    {
      if !ValidLayout(world, rank, holder.layout) {
        return Err(BadMesh);
      }
      var start, stop := 0, holder.count;
      if holder.layout.Mesh? {
        meshes := meshes[KeyOf(holder) := Seen(meshes, KeyOf(holder)) + {rank}];
        if holder.layout.sharded {
          var members := holder.layout.members;
          var p := IndexIn(members, rank);
          start := SliceStart(holder.count, |members|, p);
          stop := SliceStop(holder.count, |members|, p);
        }
      }
      HeldWhole(rank, holder);
      if localRows != stop - start {
        return Err(BadShape);
      }
      return Ok((holder.offset + start, holder.offset + stop));
    }

    /** After all ranks: every mesh was seen by exactly its members. */
    method CheckMembers() returns (ok: bool)
      ensures ok <==> forall key :: key in meshes ==> meshes[key] == (set m | m in key.members)
    {
      return forall key :: key in meshes ==> meshes[key] == (set m | m in key.members);
    }
  }

  function KeyOf(holder: Holder): MeshKey
    requires holder.layout.Mesh?
  {
    MeshKey(holder.offset, holder.count, holder.layout.members, holder.layout.sharded)
  }

  function Seen(meshes: map<MeshKey, set<nat>>, key: MeshKey): set<nat> {
    if key in meshes then meshes[key] else {}
  }

  predicate ValidLayout(world: nat, rank: nat, layout: Layout) {
    layout.Mesh? ==>
      && layout.members != [] && rank in layout.members && Distinct(layout.members)
      && forall m :: m in layout.members ==> m < world
  }

  /** Which slice the rank holds. */
  function SliceIndex(rank: nat, layout: Layout): nat {
    if layout.Mesh? && layout.sharded && rank in layout.members then IndexIn(layout.members, rank) else 0
  }

  function HeldStart(rank: nat, holder: Holder): nat {
    if SliceIndex(rank, holder.layout) < Parts(holder.layout)
    then SliceStart(holder.count, Parts(holder.layout), SliceIndex(rank, holder.layout)) else 0
  }

  function HeldStop(rank: nat, holder: Holder): nat {
    if SliceIndex(rank, holder.layout) < Parts(holder.layout)
    then SliceStop(holder.count, Parts(holder.layout), SliceIndex(rank, holder.layout)) else 0
  }

  /** A single part is all the rows. */
  lemma HeldWhole(rank: nat, holder: Holder)
    ensures Parts(holder.layout) == 1 ==> HeldStart(rank, holder) == 0 && HeldStop(rank, holder) == holder.count
  {
    if Parts(holder.layout) == 1 {
      assert Width(holder.count, 1) == holder.count;
    }
  }

  // ----- complete saves

  /** The rank holds a slice of these rows. */
  predicate Owns(holder: Holder, i: nat) {
    holder.offset <= i < holder.offset + holder.count
  }

  ghost predicate OwnedBySome(holders: seq<Holder>, i: nat) {
    exists r :: 0 <= r < |holders| && Owns(holders[r], i)
  }

  /** All members of a mesh say the same about it. */
  ghost predicate MeshAgrees(holders: seq<Holder>, r: nat)
    requires r < |holders|
  {
    && ValidLayout(|holders|, r, holders[r].layout)
    && (holders[r].layout.Mesh? ==>
          forall p :: 0 <= p < |holders[r].layout.members| ==>
            holders[r].layout.members[p] < |holders| && holders[holders[r].layout.members[p]] == holders[r])
  }

  /** Ranks that own a row in common own the same rows, cut alike; where replicas are not allowed they are
      members of one sharded mesh. */
  ghost predicate OwnersAgree(holders: seq<Holder>, exclusive: bool, r: nat, s: nat)
    requires r < |holders| && s < |holders|
  {
    (exists i: nat :: Owns(holders[r], i) && Owns(holders[s], i)) ==>
      && holders[r].offset == holders[s].offset && holders[r].count == holders[s].count
      && Parts(holders[r].layout) == Parts(holders[s].layout)
      && (exclusive ==> r == s || (holders[r].layout == holders[s].layout && holders[r].layout.Mesh? && holders[r].layout.sharded))
  }

  /** Any assignment of ranks to meshes in which every row is owned, owners of a row agree, and meshes are complete. */
  ghost predicate Deployed(holders: seq<Holder>, exclusive: bool, n: nat) {
    && (forall r :: 0 <= r < |holders| ==> MeshAgrees(holders, r) && holders[r].offset + holders[r].count <= n)
    && (forall i: nat :: i < n ==> OwnedBySome(holders, i))
    && (forall r, s :: 0 <= r < |holders| && 0 <= s < |holders| ==> OwnersAgree(holders, exclusive, r, s))
  }

  /** What rank r saves of a tensor. */
  function SavedPiece<Row>(tensor: seq<Row>, r: nat, holder: Holder): (piece: Piece<Row>)
    requires holder.offset + holder.count <= |tensor|
    ensures WellFormed(piece)
  {
    var start, stop := HeldStart(r, holder), HeldStop(r, holder);
    HeldInRange(r, holder);
    Piece(holder.offset + start, holder.offset + stop, tensor[holder.offset + start..holder.offset + stop])
  }

  lemma HeldInRange(r: nat, holder: Holder)
    ensures HeldStart(r, holder) <= HeldStop(r, holder) <= holder.count
  {
  }

  function SavedPieces<Row>(tensor: seq<Row>, holders: seq<Holder>): (pieces: seq<Piece<Row>>)
    requires forall r :: 0 <= r < |holders| ==> holders[r].offset + holders[r].count <= |tensor|
    ensures |pieces| == |holders|
    ensures forall r :: 0 <= r < |holders| ==> pieces[r] == SavedPiece(tensor, r, holders[r])
  {
    seq(|holders|, r requires 0 <= r < |holders| => SavedPiece(tensor, r, holders[r]))
  }

  /** Slice p of width w holds exactly the rows whose place divided by the width is p. */
  lemma SliceHolds(count: nat, parts: nat, p: nat, x: nat)
    requires p < parts && x < count
    ensures 0 < Width(count, parts) && x / Width(count, parts) < parts
    ensures SliceStart(count, parts, p) <= x < SliceStop(count, parts, p) <==> x / Width(count, parts) == p
  {
    var w := Width(count, parts);
    assert w == 0 ==> w * parts == 0;
    DivideBelow(x, w, parts, count);
    SliceQuotient(x, w, p);
  }

  lemma DivideBelow(x: nat, w: nat, parts: nat, count: nat)
    requires x < count <= w * parts && 0 < w
    ensures x / w < parts
  {
    assert (x / w) * w <= x;
    LessFactor(x / w, parts, w);
  }

  lemma SliceQuotient(x: nat, w: nat, p: nat)
    requires 0 < w
    ensures 0 <= p * w
    ensures p * w <= x < p * w + w <==> x / w == p
  {
    var q := x / w;
    assert x == q * w + x % w;
    assert q < p ==> q * w + w <= p * w by {
      if q < p {
        Times(q + 1, p, w);
        assert (q + 1) * w == q * w + w;
      }
    }
    assert p < q ==> p * w + w <= q * w by {
      if p < q {
        Times(p + 1, q, w);
        assert (p + 1) * w == p * w + w;
      }
    }
  }

  lemma Times(a: nat, b: nat, w: nat)
    requires a <= b
    ensures a * w <= b * w
  {
  }

  /** Whether rank r's piece has row i depends only on the row's slice. */
  lemma PieceHolds<Row>(tensor: seq<Row>, holders: seq<Holder>, exclusive: bool, r: nat, i: nat)
    requires Deployed(holders, exclusive, |tensor|) && r < |holders|
    ensures var holder := holders[r];
            && Parts(holder.layout) > 0
            && (Owns(holder, i) ==> Width(holder.count, Parts(holder.layout)) > 0)
            && (Covers(SavedPiece(tensor, r, holder), i) <==>
                  Owns(holder, i)
                  && (i - holder.offset) / Width(holder.count, Parts(holder.layout)) == SliceIndex(r, holder.layout))
  {
    var holder := holders[r];
    assert MeshAgrees(holders, r);
    HeldInRange(r, holder);
    if Owns(holder, i) {
      SliceHolds(holder.count, Parts(holder.layout), SliceIndex(r, holder.layout), i - holder.offset);
    }
  }

  lemma IndexInIs(members: seq<nat>, p: nat)
    requires Distinct(members) && p < |members|
    ensures IndexIn(members, members[p]) == p
  {
    var q := IndexIn(members, members[p]);
    assert members[q] == members[p];
  }

  /** The member of a rank's mesh that holds the slice a row belongs to. */
  lemma SliceOwner(holders: seq<Holder>, r: nat, i: nat) returns (m: nat)
    requires r < |holders| && MeshAgrees(holders, r) && Owns(holders[r], i)
    ensures m < |holders| && holders[m] == holders[r] && Parts(holders[r].layout) > 0
    ensures Width(holders[r].count, Parts(holders[r].layout)) > 0
    ensures (i - holders[r].offset) / Width(holders[r].count, Parts(holders[r].layout)) == SliceIndex(m, holders[r].layout)
  {
    hide SliceStart, SliceStop, Width;
    var holder := holders[r];
    var parts := Parts(holder.layout);
    SliceHolds(holder.count, parts, 0, i - holder.offset);
    m := r;
    if holder.layout.Mesh? && holder.layout.sharded {
      var p := (i - holder.offset) / Width(holder.count, parts);
      IndexInIs(holder.layout.members, p);
      m := holder.layout.members[p];
    }
  }

  lemma SliceIsSaved<Row>(tensor: seq<Row>, holders: seq<Holder>, exclusive: bool, r: nat, i: nat)
    requires Deployed(holders, exclusive, |tensor|) && r < |holders| && Owns(holders[r], i)
    ensures CoveredBySome(SavedPieces(tensor, holders), i)
  {
    hide SavedPiece, OwnersAgree, OwnedBySome, Covers, Width, SliceIndex, Parts;
    assert MeshAgrees(holders, r);
    var m := SliceOwner(holders, r, i);
    PieceHolds(tensor, holders, exclusive, m, i);
    assert Covers(SavedPieces(tensor, holders)[m], i);
  }

  /** Some rank holds the slice a row belongs to. */
  lemma RowIsSaved<Row>(tensor: seq<Row>, holders: seq<Holder>, exclusive: bool, i: nat)
    requires Deployed(holders, exclusive, |tensor|) && i < |tensor|
    ensures CoveredBySome(SavedPieces(tensor, holders), i)
  {
    hide SavedPiece, OwnersAgree, MeshAgrees, CoveredBySome;
    assert OwnedBySome(holders, i);
    var r :| 0 <= r < |holders| && Owns(holders[r], i);
    SliceIsSaved(tensor, holders, exclusive, r, i);
  }

  /** Owners of a row in agreement that hold the same slice of it save the same piece. */
  lemma SameSlice<Row>(tensor: seq<Row>, holders: seq<Holder>, exclusive: bool, r: nat, s: nat, i: nat)
    requires r < |holders| && s < |holders| && OwnersAgree(holders, exclusive, r, s)
    requires Owns(holders[r], i) && Owns(holders[s], i)
    requires SliceIndex(r, holders[r].layout) == SliceIndex(s, holders[s].layout)
    requires holders[r].offset + holders[r].count <= |tensor|
    ensures holders[s].offset + holders[s].count <= |tensor|
    ensures SavedPiece(tensor, r, holders[r]) == SavedPiece(tensor, s, holders[s])
  {
    hide SliceIndex, SliceStart, SliceStop, Parts;
  }

  /** In one sharded mesh only one rank holds a given slice. */
  lemma OneHolder(holders: seq<Holder>, exclusive: bool, r: nat, s: nat, i: nat)
    requires r < |holders| && s < |holders| && OwnersAgree(holders, exclusive, r, s)
    requires Owns(holders[r], i) && Owns(holders[s], i) && MeshAgrees(holders, r) && MeshAgrees(holders, s)
    requires SliceIndex(r, holders[r].layout) == SliceIndex(s, holders[s].layout)
    ensures exclusive ==> r == s
  {
    hide SliceStart, SliceStop, Parts, Width;
  }

  /** The row's place in its owner's rows fixes the slice. */
  lemma CommonSlice<Row>(tensor: seq<Row>, holders: seq<Holder>, exclusive: bool, r: nat, s: nat, i: nat)
    requires Deployed(holders, exclusive, |tensor|) && r < |holders| && s < |holders|
    requires Covers(SavedPiece(tensor, r, holders[r]), i) && Covers(SavedPiece(tensor, s, holders[s]), i)
    ensures OwnersAgree(holders, exclusive, r, s) && Owns(holders[r], i) && Owns(holders[s], i)
    ensures SliceIndex(r, holders[r].layout) == SliceIndex(s, holders[s].layout)
  {
    hide SavedPiece, SliceIndex, Width, Parts, MeshAgrees, OwnedBySome, Covers;
    PieceHolds(tensor, holders, exclusive, r, i);
    PieceHolds(tensor, holders, exclusive, s, i);
    assert OwnersAgree(holders, exclusive, r, s);
  }

  /** Two pieces with a common row are the same slice. */
  lemma SavedAgree<Row>(tensor: seq<Row>, holders: seq<Holder>, exclusive: bool, r: nat, s: nat)
    requires Deployed(holders, exclusive, |tensor|) && r < |holders| && s < |holders|
    ensures Agree(SavedPieces(tensor, holders), exclusive, r, s)
  {
    hide SavedPiece, SliceIndex, OwnersAgree, MeshAgrees, OwnedBySome, Covers, Owns;
    var pieces := SavedPieces(tensor, holders);
    if i: nat :| Covers(pieces[r], i) && Covers(pieces[s], i) {
      CommonSlice(tensor, holders, exclusive, r, s, i);
      SameSlice(tensor, holders, exclusive, r, s, i);
      OneHolder(holders, exclusive, r, s, i);
    }
  }

  /** A complete save tiles the tensor, in any order of ranks, whatever meshes share the rows. */
  lemma DeployedTiles<Row>(tensor: seq<Row>, holders: seq<Holder>, exclusive: bool)
    requires Deployed(holders, exclusive, |tensor|)
    ensures Tiles(SavedPieces(tensor, holders), exclusive, |tensor|)
    ensures forall k :: 0 <= k < |holders| ==> WellFormed(SavedPieces(tensor, holders)[k])
  {
    hide Agree, CoveredBySome, SavedPiece, OwnersAgree, OwnedBySome, MeshAgrees;
    var pieces := SavedPieces(tensor, holders);
    forall k: nat | k < |pieces| ensures pieces[k].stop <= |tensor| {
      SavedInRange(tensor, k, holders[k]);
    }
    forall i: nat | i < |tensor| ensures CoveredBySome(pieces, i) {
      RowIsSaved(tensor, holders, exclusive, i);
    }
    forall j: nat, k: nat | j < |pieces| && k < |pieces| ensures Agree(pieces, exclusive, j, k) {
      SavedAgree(tensor, holders, exclusive, j, k);
    }
  }

  lemma SavedInRange<Row>(tensor: seq<Row>, r: nat, holder: Holder)
    requires holder.offset + holder.count <= |tensor|
    ensures SavedPiece(tensor, r, holder).stop <= |tensor|
  {
    HeldInRange(r, holder);
  }

  // ----- reading the ranks' files

  /** Every rank's layout is valid and its payload as long as its slice. */
  predicate LayoutsFit(holders: seq<Holder>, lengths: seq<nat>)
    requires |lengths| == |holders|
  {
    forall r :: 0 <= r < |holders| ==>
      ValidLayout(|holders|, r, holders[r].layout) && lengths[r] == HeldStop(r, holders[r]) - HeldStart(r, holders[r])
  }

  predicate InMesh(holders: seq<Holder>, r: nat, key: MeshKey) {
    r < |holders| && holders[r].layout.Mesh? && KeyOf(holders[r]) == key
  }

  /** All members a rank names for its mesh belong to that mesh. */
  ghost predicate MembersPresent(holders: seq<Holder>) {
    forall r, m :: 0 <= r < |holders| && holders[r].layout.Mesh? && m in holders[r].layout.members ==>
      InMesh(holders, m, KeyOf(holders[r]))
  }

  /** What a reader remembers after the first k ranks: for every mesh met, the ranks met in it. */
  ghost predicate Met(holders: seq<Holder>, k: nat, meshes: map<MeshKey, set<nat>>) {
    && (forall r :: 0 <= r < k && r < |holders| && holders[r].layout.Mesh? ==> KeyOf(holders[r]) in meshes)
    && (forall key :: key in meshes ==> meshes[key] != {} && forall r: nat :: r in meshes[key] <==> r < k && InMesh(holders, r, key))
  }

  lemma NextMet(holders: seq<Holder>, k: nat, meshes: map<MeshKey, set<nat>>)
    requires Met(holders, k, meshes) && k < |holders|
    ensures holders[k].layout.Whole? ==> Met(holders, k + 1, meshes)
    ensures holders[k].layout.Mesh? ==>
              Met(holders, k + 1, meshes[KeyOf(holders[k]) := Seen(meshes, KeyOf(holders[k])) + {k}])
  {
    hide KeyOf;
    if holders[k].layout.Mesh? {
      var key := KeyOf(holders[k]);
      var next := meshes[key := Seen(meshes, key) + {k}];
      assert InMesh(holders, k, key) && k in next[key];
      forall other, r: nat | other in next ensures r in next[other] <==> r < k + 1 && InMesh(holders, r, other) {
        if other == key && key !in meshes && r < k {
          assert !InMesh(holders, r, key);
        }
      }
    }
  }

  lemma AllMetIffPresent(holders: seq<Holder>, meshes: map<MeshKey, set<nat>>)
    requires Met(holders, |holders|, meshes)
    requires forall r :: 0 <= r < |holders| ==> ValidLayout(|holders|, r, holders[r].layout)
    ensures (forall key :: key in meshes ==> meshes[key] == (set m | m in key.members)) <==> MembersPresent(holders)
  {
    if MembersPresent(holders) {
      forall key | key in meshes ensures meshes[key] == (set m | m in key.members) {
        var r :| r in meshes[key];
        assert InMesh(holders, r, key);
      }
    } else {
      var r, m :| 0 <= r < |holders| && holders[r].layout.Mesh? && m in holders[r].layout.members
                  && !InMesh(holders, m, KeyOf(holders[r]));
      assert m in KeyOf(holders[r]).members && m !in meshes[KeyOf(holders[r])];
    }
  }

  /** The constructor's loop over the ranks for one tensor: where each payload belongs, once all layouts fit and all
      meshes are complete. */
  method ReadPieces<Row>(holders: seq<Holder>, payloads: seq<seq<Row>>) returns (outcome: Result<seq<Piece<Row>>, SourceError>)
    requires |payloads| == |holders|
    ensures outcome.Ok? <==> LayoutsFit(holders, Lengths(payloads)) && MembersPresent(holders)
    ensures outcome == Err(MissingMembers) <==> LayoutsFit(holders, Lengths(payloads)) && !MembersPresent(holders)
    ensures outcome.Ok? ==>
              && |outcome.value| == |holders|
              && forall r :: 0 <= r < |holders| ==> outcome.value[r] == HeldPiece(r, holders[r], payloads[r])
  {
    hide HeldStart, HeldStop, ValidLayout, Met, MembersPresent, KeyOf;
    var reader := new LayoutReader(|holders|);
    var pieces: seq<Piece<Row>> := [];
    NothingMet(holders);
    for rank := 0 to |holders|
      invariant reader.world == |holders| && fresh(reader) && Met(holders, rank, reader.meshes)
      invariant |pieces| == rank
      invariant forall r :: 0 <= r < rank ==>
                  && ValidLayout(|holders|, r, holders[r].layout)
                  && |payloads[r]| == HeldStop(r, holders[r]) - HeldStart(r, holders[r])
                  && pieces[r] == HeldPiece(r, holders[r], payloads[r])
    {
      NextMet(holders, rank, reader.meshes);
      var range := reader.Slice(rank, holders[rank], |payloads[rank]|);
      if range.Err? {
        return Err(range.error);
      }
      HeldInRange(rank, holders[rank]);
      pieces := pieces + [Piece(range.value.0, range.value.1, payloads[rank])];
    }
    var complete := reader.CheckMembers();
    AllMetIffPresent(holders, reader.meshes);
    if !complete {
      return Err(MissingMembers);
    }
    return Ok(pieces);
  }

  lemma NothingMet(holders: seq<Holder>)
    ensures Met(holders, 0, map[])
  {
  }

  function Lengths<Row>(payloads: seq<seq<Row>>): (lengths: seq<nat>)
    ensures |lengths| == |payloads| && forall r :: 0 <= r < |payloads| ==> lengths[r] == |payloads[r]|
  {
    seq(|payloads|, r requires 0 <= r < |payloads| => |payloads[r]|)
  }

  /** A payload in the place its holder has for it. */
  function HeldPiece<Row>(r: nat, holder: Holder, payload: seq<Row>): Piece<Row> {
    Piece(holder.offset + HeldStart(r, holder), holder.offset + HeldStop(r, holder), payload)
  }

  /** What a complete save wrote is read back: the layouts fit, and the payloads are the pieces saved. */
  lemma DeployedReads<Row>(tensor: seq<Row>, holders: seq<Holder>, exclusive: bool, payloads: seq<seq<Row>>)
    requires Deployed(holders, exclusive, |tensor|) && |payloads| == |holders|
    requires forall r :: 0 <= r < |holders| ==> payloads[r] == SavedPiece(tensor, r, holders[r]).rows
    ensures LayoutsFit(holders, Lengths(payloads)) && MembersPresent(holders)
    ensures forall r :: 0 <= r < |holders| ==> HeldPiece(r, holders[r], payloads[r]) == SavedPieces(tensor, holders)[r]
  {
    hide HeldStart, HeldStop, OwnersAgree, OwnedBySome;
    forall r | 0 <= r < |holders|
      ensures MeshAgrees(holders, r) && |payloads[r]| == HeldStop(r, holders[r]) - HeldStart(r, holders[r])
    {
      HeldInRange(r, holders[r]);
    }
    forall r, m | 0 <= r < |holders| && holders[r].layout.Mesh? && m in holders[r].layout.members
      ensures InMesh(holders, m, KeyOf(holders[r]))
    {
      assert MeshAgrees(holders, r);
      var p :| 0 <= p < |holders[r].layout.members| && holders[r].layout.members[p] == m;
    }
  }

  /** Reading back what the ranks saved of a tensor: the layouts and the pieces are accepted and the tensor is rebuilt
      exactly, for any chunk size. */
  method Reassemble<Row(==)>(
    ghost tensor: seq<Row>, holders: seq<Holder>, payloads: seq<seq<Row>>, exclusive: bool, chunkBytes: nat, rowBytes: nat,
    destination: array<Row>) returns (error: Option<SourceError>)
    requires Deployed(holders, exclusive, |tensor|) && destination.Length == |tensor|
    requires |payloads| == |holders| && forall r :: 0 <= r < |holders| ==> payloads[r] == SavedPiece(tensor, r, holders[r]).rows
    modifies destination
    ensures error == None && destination[..] == tensor
  {
    hide Deployed, Tiles, LayoutsFit, MembersPresent, Rebuilt, SavedPiece, HeldPiece, Placed;
    var n := destination.Length;
    var pieces := ReadPieces(holders, payloads);
    DeployedReads(tensor, holders, exclusive, payloads);
    HoldersInRange(holders, exclusive, |tensor|);
    assert pieces.value == SavedPieces(tensor, holders);
    DeployedTiles(tensor, holders, exclusive);
    var outcome := Cover(pieces.value, exclusive, n);
    RebuiltWellFormed(pieces.value, outcome.value, n);
    RebuiltChained(pieces.value, outcome.value, n);
    CopyTensor(outcome.value, n, chunkBytes, rowBytes, destination);
    RebuiltTensor(tensor, holders, outcome.value, destination[..]);
    return None;
  }

  lemma HoldersInRange(holders: seq<Holder>, exclusive: bool, n: nat)
    requires Deployed(holders, exclusive, n)
    ensures forall r :: 0 <= r < |holders| ==> holders[r].offset + holders[r].count <= n
  {
  }

  lemma RebuiltChained<Row>(pieces: seq<Piece<Row>>, result: seq<Piece<Row>>, n: nat)
    requires Rebuilt(pieces, result, n)
    ensures Chained(result, n)
  {
  }

  lemma RebuiltWellFormed<Row>(pieces: seq<Piece<Row>>, result: seq<Piece<Row>>, n: nat)
    requires Rebuilt(pieces, result, n) && forall k :: 0 <= k < |pieces| ==> WellFormed(pieces[k])
    ensures forall r :: 0 <= r < |result| ==> WellFormed(result[r])
  {
    forall r | 0 <= r < |result| ensures WellFormed(result[r]) {
      assert AmongFirst(pieces, |pieces|, result[r]);
      var k :| 0 <= k < |pieces| && pieces[k] == result[r];
      assert WellFormed(pieces[k]);
    }
  }

  lemma RebuiltTensor<Row>(tensor: seq<Row>, holders: seq<Holder>, result: seq<Piece<Row>>, rebuilt: seq<Row>)
    requires forall r :: 0 <= r < |holders| ==> holders[r].offset + holders[r].count <= |tensor|
    requires Rebuilt(SavedPieces(tensor, holders), result, |tensor|)
    requires |rebuilt| == |tensor| && forall r :: 0 <= r < |result| ==> Placed(rebuilt, result[r])
    ensures rebuilt == tensor
  {
    hide SavedPiece, Chained;
    var pieces := SavedPieces(tensor, holders);
    ChainBounds(result, |tensor|);
    forall i | 0 <= i < |tensor| ensures rebuilt[i] == tensor[i] {
      assert CoveredBySome(result, i);
      var r :| 0 <= r < |result| && Covers(result[r], i);
      assert AmongFirst(pieces, |pieces|, result[r]) && Placed(rebuilt, result[r]);
      var k :| 0 <= k < |pieces| && pieces[k] == result[r];
      SavedRow(tensor, k, holders[k], i);
    }
  }

  lemma SavedRow<Row>(tensor: seq<Row>, r: nat, holder: Holder, i: nat)
    requires holder.offset + holder.count <= |tensor| && Covers(SavedPiece(tensor, r, holder), i)
    ensures i < |tensor| && SavedPiece(tensor, r, holder).rows[i - SavedPiece(tensor, r, holder).start] == tensor[i]
  {
    HeldInRange(r, holder);
  }
}
