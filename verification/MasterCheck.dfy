/** `_validate_master` (dsv41_train/sft_checkpoint.py): an FP32 master weight must round to its BF16 parameter
    everywhere, compared in slices of bounded size however wide or oddly shaped the tensor is. */
module MasterCheck {

  /** An element: whether it is finite, and what it rounds to. */
  datatype Element = Element(finite: bool, rounded: int)

  type Index = seq<nat>
  type Tensor = Index -> Element

  /** A slice of a tensor: along each axis, where it starts and how long it is. */
  datatype Slice = Slice(starts: seq<nat>, sizes: seq<nat>)

  predicate Shaped(slice: Slice) {
    |slice.starts| == |slice.sizes|
  }

  function Numel(sizes: seq<nat>): nat {
    if sizes == [] then 1 else sizes[0] * Numel(sizes[1..])
  }

  predicate Inside(index: Index, slice: Slice)
    requires Shaped(slice)
  {
    && |index| == |slice.sizes|
    && forall a :: 0 <= a < |index| ==> slice.starts[a] <= index[a] < slice.starts[a] + slice.sizes[a]
  }

  predicate Agrees(master: Element, reference: Element) {
    master.finite && reference.finite && master.rounded == reference.rounded
  }

  /** One comparison of a whole slice, axis by axis. */
  predicate Equal(master: Tensor, reference: Tensor, prefix: Index, slice: Slice)
    requires Shaped(slice)
    decreases |slice.sizes|
  {
    if slice.sizes == [] then Agrees(master(prefix), reference(prefix))
    else
      forall i: nat :: slice.starts[0] <= i < slice.starts[0] + slice.sizes[0] ==>
        Equal(master, reference, prefix + [i], Slice(slice.starts[1..], slice.sizes[1..]))
  }

  /** A master is valid on a slice if it is finite and rounds to its finite parameter at every index in it. */
  ghost predicate Matches(master: Tensor, reference: Tensor, slice: Slice)
    requires Shaped(slice)
  {
    forall index :: Inside(index, slice) ==> Agrees(master(index), reference(index))
  }

  /** The elements of a slice from `start` on along one axis, `count` of them. */
  function Narrow(slice: Slice, axis: nat, start: nat, count: nat): (narrow: Slice)
    requires Shaped(slice) && axis < |slice.sizes|
    ensures Shaped(narrow)
  {
    Slice(slice.starts[axis := slice.starts[axis] + start], slice.sizes[axis := count])
  }

  lemma Associates(a: nat, b: nat, c: nat)
    ensures a * (b * c) == a * b * c
  {
  }

  lemma {:induction false} NumelAt(sizes: seq<nat>, axis: nat)
    requires axis < |sizes|
    ensures Numel(sizes) == Numel(sizes[axis := 1]) * sizes[axis]
  {
    if axis > 0 {
      NumelAt(sizes[1..], axis - 1);
      assert sizes[axis := 1][1..] == sizes[1..][axis - 1 := 1];
      Associates(sizes[0], Numel(sizes[1..][axis - 1 := 1]), sizes[axis]);
    } else {
      assert sizes[axis := 1][1..] == sizes[1..];
    }
  }

  /** A slice narrowed along an axis holds that many times the elements of the other axes. */
  lemma NumelNarrowed(slice: Slice, axis: nat, start: nat, count: nat)
    requires Shaped(slice) && axis < |slice.sizes|
    ensures Numel(Narrow(slice, axis, start, count).sizes) == Numel(slice.sizes[axis := 1]) * count
  {
    NumelAt(slice.sizes[axis := count], axis);
    assert slice.sizes[axis := count][axis := 1] == slice.sizes[axis := 1];
  }

  /** Only one element is left once no axis is longer than one. */
  lemma {:induction false} NumelFlat(sizes: seq<nat>)
    requires forall a :: 0 <= a < |sizes| ==> sizes[a] <= 1
    ensures Numel(sizes) <= 1
  {
    if sizes != [] {
      NumelFlat(sizes[1..]);
    }
  }

  /** The same for the elements behind a prefix of the index. */
  ghost predicate MatchesUnder(master: Tensor, reference: Tensor, prefix: Index, slice: Slice)
    requires Shaped(slice)
  {
    forall index :: Inside(index, slice) ==> Agrees(master(prefix + index), reference(prefix + index))
  }

  lemma {:induction false} EqualMatches(master: Tensor, reference: Tensor, prefix: Index, slice: Slice)
    requires Shaped(slice)
    ensures Equal(master, reference, prefix, slice) <==> MatchesUnder(master, reference, prefix, slice)
    decreases |slice.sizes|
  {
    hide MatchesUnder;
    if slice.sizes == [] {
      ScalarMatches(master, reference, prefix, slice);
    } else {
      var inner := Slice(slice.starts[1..], slice.sizes[1..]);
      forall i: nat
        ensures Equal(master, reference, prefix + [i], inner) <==> MatchesUnder(master, reference, prefix + [i], inner)
      {
        EqualMatches(master, reference, prefix + [i], inner);
      }
      InnerMatches(master, reference, prefix, slice);
    }
  }

  lemma ScalarMatches(master: Tensor, reference: Tensor, prefix: Index, slice: Slice)
    requires Shaped(slice) && slice.sizes == []
    ensures MatchesUnder(master, reference, prefix, slice) <==> Agrees(master(prefix), reference(prefix))
  {
    assert prefix + [] == prefix;
    assert Inside([], slice);
  }

  /** A slice matches exactly if each of its slices along the first axis does. */
  lemma InnerMatches(master: Tensor, reference: Tensor, prefix: Index, slice: Slice)
    requires Shaped(slice) && slice.sizes != []
    ensures var inner := Slice(slice.starts[1..], slice.sizes[1..]);
            MatchesUnder(master, reference, prefix, slice) <==>
            forall i: nat :: slice.starts[0] <= i < slice.starts[0] + slice.sizes[0] ==>
              MatchesUnder(master, reference, prefix + [i], inner)
  {
    hide Agrees;
    var inner := Slice(slice.starts[1..], slice.sizes[1..]);
    forall i: nat, index | MatchesUnder(master, reference, prefix, slice)
                           && slice.starts[0] <= i < slice.starts[0] + slice.sizes[0] && Inside(index, inner)
      ensures Agrees(master(prefix + [i] + index), reference(prefix + [i] + index))
    {
      Prepended(slice, i, index);
      assert prefix + [i] + index == prefix + ([i] + index);
    }
    forall index | Inside(index, slice)
      ensures index != [] && slice.starts[0] <= index[0] < slice.starts[0] + slice.sizes[0]
      ensures MatchesUnder(master, reference, prefix + [index[0]], inner) ==>
                Agrees(master(prefix + index), reference(prefix + index))
    {
      assert Inside(index[1..], inner);
      assert prefix + [index[0]] + index[1..] == prefix + index;
    }
  }

  lemma Prepended(slice: Slice, i: nat, index: Index)
    requires Shaped(slice) && slice.sizes != [] && slice.starts[0] <= i < slice.starts[0] + slice.sizes[0]
    requires Inside(index, Slice(slice.starts[1..], slice.sizes[1..]))
    ensures Inside([i] + index, slice)
  {
  }

  /** Compare slice by slice, never more than `limit` elements at once. */
  method Check(master: Tensor, reference: Tensor, slice: Slice, limit: nat) returns (ok: bool, peak: nat)
    requires Shaped(slice) && limit > 0
    ensures ok <==> Matches(master, reference, slice)
    ensures ok <==> forall index: Index :: Inside(index, slice) ==>
                      && master(index).finite && reference(index).finite
                      && master(index).rounded == reference(index).rounded
    ensures peak <= limit
    decreases Numel(slice.sizes)
  {
    if Numel(slice.sizes) <= limit {
      EqualMatches(master, reference, [], slice);
      assert forall index: Index :: [] + index == index;
      return Equal(master, reference, [], slice), Numel(slice.sizes);
    }
    var axis := LongAxis(slice.sizes);
    var size := slice.sizes[axis];
    NumelAt(slice.sizes, axis);
    ghost var inner := Numel(slice.sizes[axis := 1]);
    var width := Width(Numel(slice.sizes), size, limit, inner);
    ok, peak := true, 0;
    var start := 0;
    NothingToMatch(master, reference, slice, axis);
    while start < size
      invariant start <= size && peak <= limit && ok
      invariant Matches(master, reference, Narrow(slice, axis, 0, start))
    {
      var count := if size - start < width then size - start else width;
      NumelNarrowed(slice, axis, start, count);
      Smaller(inner, count, size);
      var fine, most := Check(master, reference, Narrow(slice, axis, start, count), limit);
      peak := if most > peak then most else peak;
      if !fine {
        NotMatched(master, reference, slice, axis, start, count);
        return false, peak;
      }
      Joined(master, reference, slice, axis, start, count);
      start := start + count;
    }
    assert Narrow(slice, axis, 0, size) == slice;
  }

  method LongAxis(sizes: seq<nat>) returns (axis: nat)
    requires Numel(sizes) > 1
    ensures axis < |sizes| && sizes[axis] > 1 && forall a :: 0 <= a < axis ==> sizes[a] <= 1
  {
    axis := 0;
    while axis < |sizes| && sizes[axis] <= 1
      invariant axis <= |sizes| && forall a :: 0 <= a < axis ==> sizes[a] <= 1
    {
      axis := axis + 1;
    }
    if axis == |sizes| {
      NumelFlat(sizes);
    }
  }

  /** How many steps along the axis fit the limit: at least one, and fewer than the axis has. */
  method Width(numel: nat, size: nat, limit: nat, ghost inner: nat) returns (width: nat)
    requires size > 1 && numel == inner * size && numel > limit > 0
    ensures 1 <= width < size
  {
    InnerIs(numel, size, inner);
    width := limit / (numel / size);
    Fits(limit, inner, size);
    width := if width < 1 then 1 else width;
  }

  lemma InnerIs(numel: nat, size: nat, inner: nat)
    requires size > 0 && numel == inner * size && numel > 0
    ensures numel / size == inner && inner > 0
  {
    var q := numel / size;
    assert numel == size * q + numel % size;
    MuchLess(q, inner, size);
    MuchLess(inner, q, size);
  }

  lemma MuchLess(a: nat, b: nat, size: nat)
    ensures a < b ==> a * size + size <= b * size
  {
    if a < b {
      Distributes(a + 1, b - a - 1, size);
      Distributes(a, 1, size);
    }
  }

  lemma Distributes(a: nat, b: nat, size: nat)
    ensures (a + b) * size == a * size + b * size
  {
  }

  lemma Fits(limit: nat, inner: nat, size: nat)
    requires inner > 0 && limit < inner * size
    ensures limit / inner < size
  {
  }

  lemma Smaller(inner: nat, count: nat, size: nat)
    requires count < size && inner * size > 0
    ensures inner * count < inner * size
  {
  }

  lemma NothingToMatch(master: Tensor, reference: Tensor, slice: Slice, axis: nat)
    requires Shaped(slice) && axis < |slice.sizes|
    ensures Matches(master, reference, Narrow(slice, axis, 0, 0))
  {
    var none := Narrow(slice, axis, 0, 0);
    forall index: Index ensures !Inside(index, none) {
      assert none.sizes[axis] == 0;
    }
  }

  lemma Joined(master: Tensor, reference: Tensor, slice: Slice, axis: nat, start: nat, count: nat)
    requires Shaped(slice) && axis < |slice.sizes|
    requires Matches(master, reference, Narrow(slice, axis, 0, start)) && Matches(master, reference, Narrow(slice, axis, start, count))
    ensures Matches(master, reference, Narrow(slice, axis, 0, start + count))
  {
    forall index | Inside(index, Narrow(slice, axis, 0, start + count)) ensures Agrees(master(index), reference(index)) {
      assert Inside(index, Narrow(slice, axis, if index[axis] < slice.starts[axis] + start then 0 else start,
                                  if index[axis] < slice.starts[axis] + start then start else count));
    }
  }

  lemma NotMatched(master: Tensor, reference: Tensor, slice: Slice, axis: nat, start: nat, count: nat)
    requires Shaped(slice) && axis < |slice.sizes| && start + count <= slice.sizes[axis]
    requires !Matches(master, reference, Narrow(slice, axis, start, count))
    ensures !Matches(master, reference, slice)
  {
    var narrow := Narrow(slice, axis, start, count);
    var index :| Inside(index, narrow) && !Agrees(master(index), reference(index));
    assert Inside(index, slice);
  }
}
