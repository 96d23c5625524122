/** The one ordering every component sorts with: records by a key, ties by position. An order is given as the
    sequence of original positions. */
module Sorting {

  datatype Key = Key(major: int, minor: int)

  /** Position i must come before position j: smaller key first, then smaller position. */
  predicate Before(keys: seq<Key>, i: nat, j: nat)
    requires i < |keys| && j < |keys|
  {
    keys[i].major < keys[j].major ||
    (keys[i].major == keys[j].major &&
     (keys[i].minor < keys[j].minor || (keys[i].minor == keys[j].minor && i < j)))
  }

  /** `order` lists every position below `n` once, in sorted order. */
  ghost predicate IsOrder(keys: seq<Key>, order: seq<nat>, n: nat)
    requires n <= |keys|
  {
    && |order| == n
    && (forall p :: 0 <= p < |order| ==> order[p] < n)
    && (forall i: nat :: i < n ==> i in order)
    && (forall p, q :: 0 <= p < q < |order| ==> Before(keys, order[p], order[q]))
  }

  function Insert(keys: seq<Key>, order: seq<nat>, x: nat): (r: seq<nat>)
    requires x < |keys|
    requires forall p :: 0 <= p < |order| ==> order[p] < |keys|
  {
    if order == [] then [x]
    else if Before(keys, x, order[0]) then [x] + order
    else [order[0]] + Insert(keys, order[1..], x)
  }

  lemma {:induction false} InsertKeepsOrder(keys: seq<Key>, order: seq<nat>, x: nat)
    requires x < |keys|
    requires forall p :: 0 <= p < |order| ==> order[p] < |keys| && order[p] != x
    requires forall p, q :: 0 <= p < q < |order| ==> Before(keys, order[p], order[q])
    ensures var r := Insert(keys, order, x);
            && |r| == |order| + 1
            && (forall i: nat :: i in r <==> i == x || i in order)
            && (forall p :: 0 <= p < |r| ==> r[p] < |keys|)
            && (forall p, q :: 0 <= p < q < |r| ==> Before(keys, r[p], r[q]))
  {
    if order == [] || Before(keys, x, order[0]) {
    } else {
      var rest := Insert(keys, order[1..], x);
      InsertKeepsOrder(keys, order[1..], x);
      assert order == [order[0]] + order[1..];
      forall q | 0 <= q < |rest| ensures Before(keys, order[0], rest[q]) {
        assert rest[q] in rest;
        if rest[q] != x {
          assert rest[q] in order[1..];
        }
      }
    }
  }

  function OrderUpTo(keys: seq<Key>, n: nat): (order: seq<nat>)
    requires n <= |keys|
    ensures IsOrder(keys, order, n)
  {
    if n == 0 then []
    else
      var prior := OrderUpTo(keys, n - 1);
      InsertKeepsOrder(keys, prior, n - 1);
      var order := Insert(keys, prior, n - 1);
      assert forall p :: 0 <= p < |order| ==> order[p] in order;
      order
  }

  /** The positions of `keys` in stable sorted order. */
  function StableOrder(keys: seq<Key>): (order: seq<nat>)
    ensures IsOrder(keys, order, |keys|)
  {
    OrderUpTo(keys, |keys|)
  }

  /** A strictly ascending sequence of n naturals below n is 0, 1, ..., n-1. */
  lemma {:induction false} AscendingIsIdentity(a: seq<nat>, i: nat)
    requires forall p :: 0 <= p < |a| ==> a[p] < |a|
    requires forall p, q :: 0 <= p < q < |a| ==> a[p] < a[q]
    requires i < |a|
    ensures a[i] == i
  {
    AscendingLowerBound(a, i);
    AscendingUpperBound(a, i);
  }

  lemma {:induction false} AscendingLowerBound(a: seq<nat>, i: nat)
    requires forall p, q :: 0 <= p < q < |a| ==> a[p] < a[q]
    requires i < |a|
    ensures i <= a[i]
  {
    if i > 0 {
      AscendingLowerBound(a, i - 1);
    }
  }

  lemma {:induction false} AscendingUpperBound(a: seq<nat>, i: nat)
    requires forall p :: 0 <= p < |a| ==> a[p] < |a|
    requires forall p, q :: 0 <= p < q < |a| ==> a[p] < a[q]
    requires i < |a|
    ensures a[i] <= i
    decreases |a| - i
  {
    if i + 1 < |a| {
      AscendingUpperBound(a, i + 1);
    }
  }

  /** The positions sorted by the values at them. */
  function Argsort(values: seq<nat>): (order: seq<nat>)
    ensures |order| == |values|
    ensures forall p :: 0 <= p < |order| ==> order[p] < |values|
  {
    StableOrder(seq(|values|, i requires 0 <= i < |values| => Key(values[i], 0)))
  }

  /** Argsort of a permutation is its inverse. */
  lemma ArgsortInverts(keys: seq<Key>, order: seq<nat>, i: nat)
    requires IsOrder(keys, order, |keys|)
    requires i < |keys|
    ensures order[Argsort(order)[i]] == i
  {
    var ranks := seq(|order|, p requires 0 <= p < |order| => Key(order[p], 0));
    var inverse := Argsort(order);
    assert inverse == StableOrder(ranks);
    var gathered := seq(|order|, p requires 0 <= p < |order| => order[inverse[p]]);
    forall p, q | 0 <= p < q < |gathered| ensures gathered[p] < gathered[q] {
      assert Before(ranks, inverse[p], inverse[q]);
    }
    AscendingIsIdentity(gathered, i);
  }
}
