/** Sorted row ids and plain row lookup, shared by everything that handles sparse rows of a table. */
module RowIds {

  /** Plain row lookup. */
  function Lookup<Row>(rows: seq<Row>, ids: seq<int>): (r: seq<Row>)
    requires InRange(ids, |rows|)
    ensures |r| == |ids|
    ensures forall i :: 0 <= i < |ids| ==> r[i] == rows[ids[i]]
  {
    seq(|ids|, i requires 0 <= i < |ids| => rows[ids[i]])
  }

  predicate InRange(ids: seq<int>, count: int) {
    forall i :: 0 <= i < |ids| ==> 0 <= ids[i] < count
  }

  // ----- unique(sorted=True)

  predicate Ascending(s: seq<int>) {
    forall i, j :: 0 <= i < j < |s| ==> s[i] < s[j]
  }

  function InsertUnique(s: seq<int>, x: int): (r: seq<int>)
    requires Ascending(s)
    ensures Ascending(r)
    ensures forall y :: y in r <==> y == x || y in s
  {
    if s == [] then [x]
    else if x < s[0] then [x] + s
    else if x == s[0] then s
    else
      var rest := InsertUnique(s[1..], x);
      assert s == [s[0]] + s[1..];
      assert forall k :: 0 <= k < |rest| ==> rest[k] in rest;
      [s[0]] + rest
  }

  function SortedUnique(s: seq<int>): (r: seq<int>)
    ensures Ascending(r)
    ensures forall y :: y in r <==> y in s
  {
    if s == [] then [] else
      assert s == s[..|s| - 1] + [s[|s| - 1]];
      InsertUnique(SortedUnique(s[..|s| - 1]), s[|s| - 1])
  }

  function IndexOf(s: seq<int>, x: int): (k: nat)
    requires x in s
    ensures k < |s| && s[k] == x
  {
    if s[0] == x then 0 else 1 + IndexOf(s[1..], x)
  }

  /** An ascending sequence has no gaps in what it bounds. */
  lemma AscendingBounds(s: seq<int>, k: nat)
    requires Ascending(s) && k < |s|
    ensures s[0] <= s[k] <= s[|s| - 1]
  {
  }

  lemma AscendingTail(s: seq<int>)
    requires Ascending(s) && s != []
    ensures Ascending(s[1..]) && Ascending(s[..|s| - 1])
    ensures s[0] !in s[1..] && s[|s| - 1] !in s[..|s| - 1]
  {
  }

  lemma IndexOfIs(s: seq<int>, k: nat)
    requires Ascending(s) && k < |s|
    ensures IndexOf(s, s[k]) == k
  {
  }

  /** Local ids as ids of the whole table. */
  function Shifted(ids: seq<int>, offset: int): (shifted: seq<int>)
    ensures |shifted| == |ids| && forall k :: 0 <= k < |ids| ==> shifted[k] == ids[k] + offset
  {
    seq(|ids|, k requires 0 <= k < |ids| => ids[k] + offset)
  }

  /** Ascending sequences with the same members are equal. */
  lemma {:induction false} AscendingEqual(a: seq<int>, b: seq<int>)
    requires Ascending(a) && Ascending(b) && forall x :: x in a <==> x in b
    ensures a == b
  {
    if a != [] {
      assert a[0] in a;
    }
    if b != [] {
      assert b[0] in b;
    }
    if a != [] {
      assert a[0] in b && b != [];
      assert b[0] in a;
      assert a[0] == b[0];
      assert forall x :: x in a <==> x == a[0] || x in a[1..];
      assert forall x :: x in b <==> x == b[0] || x in b[1..];
      AscendingTail(a);
      AscendingTail(b);
      AscendingEqual(a[1..], b[1..]);
      assert a == [a[0]] + a[1..] && b == [b[0]] + b[1..];
    }
  }

  lemma SortedUniqueOfAscending(s: seq<int>)
    requires Ascending(s)
    ensures SortedUnique(s) == s
  {
    AscendingEqual(SortedUnique(s), s);
  }
}
