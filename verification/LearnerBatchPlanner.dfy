/** Greedy packing of responses into qualified batch shapes
    (dsv41_train/rl/learner_batch_planner.py).

    `PlanMicrobatches` follows the planner's loops. The rest of the module proves
    that its plan covers every response once, that no partition of the responses
    into batches that fit some cell, contiguous or not, uses fewer batches, and
    that packing leaves the training objective unchanged. */
module LearnerBatchPlanner {
  import opened Wrappers
  import opened Sorting

  /** At most `width` responses, none longer than `tokens`. */
  datatype Cell = Cell(width: int, tokens: int)

  datatype Batch = Batch(indices: seq<nat>, cell: Option<Cell>)

  datatype PlanError = InvalidRequest | InvalidCells | UncoveredLength

  const MAX_WIDTH := 32
  const MAX_TOKENS := 2047

  predicate ValidRequest(lengths: seq<int>, fixedSize: int) {
    && 1 <= fixedSize <= MAX_WIDTH
    && lengths != []
    && forall i :: 0 <= i < |lengths| ==> 1 <= lengths[i] <= MAX_TOKENS
  }

  predicate ValidCells(shapes: seq<Cell>) {
    && shapes != []
    && forall k :: 0 <= k < |shapes| ==> 1 <= shapes[k].width <= MAX_WIDTH && 1 <= shapes[k].tokens <= MAX_TOKENS
  }

  predicate Covered(length: int, shapes: seq<Cell>) {
    exists k :: 0 <= k < |shapes| && length <= shapes[k].tokens
  }

  predicate CoversAll(lengths: seq<int>, shapes: seq<Cell>) {
    forall i :: 0 <= i < |lengths| ==> Covered(lengths[i], shapes)
  }

  function LengthKeys(lengths: seq<int>): (keys: seq<Key>)
    ensures |keys| == |lengths|
  {
    seq(|lengths|, i requires 0 <= i < |lengths| => Key(lengths[i], i))
  }

  /** The order the planner walks: by length, then by response index. */
  function LengthOrder(lengths: seq<int>): (order: seq<nat>)
    ensures |order| == |lengths|
    ensures forall p :: 0 <= p < |order| ==> order[p] < |lengths|
  {
    StableOrder(LengthKeys(lengths))
  }

  lemma LengthOrderSorts(lengths: seq<int>, p: nat, q: nat)
    requires p < q < |lengths|
    ensures lengths[LengthOrder(lengths)[p]] <= lengths[LengthOrder(lengths)[q]]
    ensures LengthOrder(lengths)[p] != LengthOrder(lengths)[q]
  {
    assert IsOrder(LengthKeys(lengths), LengthOrder(lengths), |lengths|);
  }

  lemma LengthOrderPlaces(lengths: seq<int>, i: nat) returns (p: nat)
    requires i < |lengths|
    ensures p < |lengths| && LengthOrder(lengths)[p] == i
  {
    assert i in LengthOrder(lengths);
    p :| p < |LengthOrder(lengths)| && LengthOrder(lengths)[p] == i;
  }

  /** How many responses, in sorted order from `cursor`, one batch of shape `cell` can take. */
  function Reach(lengths: seq<int>, order: seq<nat>, cursor: nat, cell: Cell, taken: nat := 0): (count: nat)
    requires forall p :: 0 <= p < |order| ==> order[p] < |lengths|
    requires cursor + taken <= |order|
    ensures taken <= count && cursor + count <= |order|
    decreases |order| - (cursor + taken)
  {
    if taken < cell.width && cursor + taken < |order| && lengths[order[cursor + taken]] <= cell.tokens
    then Reach(lengths, order, cursor, cell, taken + 1)
    else taken
  }

  /** The reach is feasible and cannot be extended. */
  lemma {:induction false} ReachIsMaximal(lengths: seq<int>, order: seq<nat>, cursor: nat, cell: Cell, taken: nat := 0)
    requires forall p :: 0 <= p < |order| ==> order[p] < |lengths|
    requires cursor + taken <= |order|
    ensures var count := Reach(lengths, order, cursor, cell, taken);
            && (count <= cell.width || count == taken)
            && (forall p :: cursor + taken <= p < cursor + count ==> lengths[order[p]] <= cell.tokens)
            && (count >= cell.width || cursor + count == |order| || lengths[order[cursor + count]] > cell.tokens)
    decreases |order| - (cursor + taken)
  {
    if taken < cell.width && cursor + taken < |order| && lengths[order[cursor + taken]] <= cell.tokens {
      ReachIsMaximal(lengths, order, cursor, cell, taken + 1);
    }
  }

  /** The batch the planner must choose at `cursor`: no cell takes more responses, and
      among the cells that take as many it is the tightest, then the narrowest. */
  ghost predicate GreedyBatch(lengths: seq<int>, order: seq<nat>, shapes: seq<Cell>, cursor: nat, batch: Batch)
    requires forall p :: 0 <= p < |order| ==> order[p] < |lengths|
  {
    && cursor + |batch.indices| <= |order|
    && batch.indices != []
    && batch.indices == order[cursor..cursor + |batch.indices|]
    && batch.cell.Some?
    && batch.cell.value in shapes
    && |batch.indices| == Reach(lengths, order, cursor, batch.cell.value)
    && forall other :: other in shapes ==>
         var reach := Reach(lengths, order, cursor, other);
         && reach <= |batch.indices|
         && (reach == |batch.indices| ==>
               batch.cell.value.tokens < other.tokens ||
               (batch.cell.value.tokens == other.tokens && batch.cell.value.width <= other.width))
  }

  function Flatten(plan: seq<Batch>): seq<nat> {
    if plan == [] then [] else Flatten(plan[..|plan| - 1]) + plan[|plan| - 1].indices
  }

  ghost predicate GreedyPlan(lengths: seq<int>, order: seq<nat>, shapes: seq<Cell>, plan: seq<Batch>)
    requires forall p :: 0 <= p < |order| ==> order[p] < |lengths|
  {
    plan == [] ||
    (var front := plan[..|plan| - 1];
     && GreedyPlan(lengths, order, shapes, front)
     && GreedyBatch(lengths, order, shapes, |Flatten(front)|, plan[|plan| - 1]))
  }

  lemma {:induction false} GreedyPlanAt(lengths: seq<int>, order: seq<nat>, shapes: seq<Cell>, plan: seq<Batch>, k: nat)
    requires forall p :: 0 <= p < |order| ==> order[p] < |lengths|
    requires GreedyPlan(lengths, order, shapes, plan)
    requires k < |plan|
    ensures GreedyBatch(lengths, order, shapes, |Flatten(plan[..k])|, plan[k])
  {
    if k < |plan| - 1 {
      GreedyPlanAt(lengths, order, shapes, plan[..|plan| - 1], k);
      assert plan[..|plan| - 1][..k] == plan[..k];
    }
  }

  // ----- there is one greedy plan

  /** The best batch at a cursor is unique: ties are settled by the cell's tokens, then by its width. */
  lemma GreedyBatchIsUnique(lengths: seq<int>, order: seq<nat>, shapes: seq<Cell>, cursor: nat, a: Batch, b: Batch)
    requires forall p :: 0 <= p < |order| ==> order[p] < |lengths|
    requires GreedyBatch(lengths, order, shapes, cursor, a) && GreedyBatch(lengths, order, shapes, cursor, b)
    ensures a == b
  {
    hide Reach;
    assert |a.indices| == |b.indices|;
  }

  lemma {:induction false} GreedyPlansAgree(lengths: seq<int>, order: seq<nat>, shapes: seq<Cell>, a: seq<Batch>, b: seq<Batch>, k: nat)
    requires forall p :: 0 <= p < |order| ==> order[p] < |lengths|
    requires GreedyPlan(lengths, order, shapes, a) && GreedyPlan(lengths, order, shapes, b)
    requires k <= |a| && k <= |b|
    ensures a[..k] == b[..k]
    decreases k
  {
    hide GreedyBatch;
    if k > 0 {
      GreedyPlansAgree(lengths, order, shapes, a, b, k - 1);
      GreedyPlanAt(lengths, order, shapes, a, k - 1);
      GreedyPlanAt(lengths, order, shapes, b, k - 1);
      GreedyBatchIsUnique(lengths, order, shapes, |Flatten(a[..k - 1])|, a[k - 1], b[k - 1]);
      assert a[..k] == a[..k - 1] + [a[k - 1]] && b[..k] == b[..k - 1] + [b[k - 1]];
    }
  }

  /** A plan cannot be a proper beginning of another that plans the same responses. */
  lemma {:induction false} LongerFlattens(plan: seq<Batch>, k: nat)
    requires k <= |plan| && forall j :: 0 <= j < |plan| ==> plan[j].indices != []
    ensures |Flatten(plan)| >= |Flatten(plan[..k])| + |plan| - k
    decreases |plan|
  {
    if k == |plan| {
      assert plan[..k] == plan;
    } else {
      var front := plan[..|plan| - 1];
      assert front[..k] == plan[..k];
      LongerFlattens(front, k);
    }
  }

  lemma NoBatchIsEmpty(lengths: seq<int>, order: seq<nat>, shapes: seq<Cell>, plan: seq<Batch>)
    requires forall p :: 0 <= p < |order| ==> order[p] < |lengths|
    requires GreedyPlan(lengths, order, shapes, plan)
    ensures forall k :: 0 <= k < |plan| ==> plan[k].indices != []
  {
    forall k: nat | k < |plan| ensures plan[k].indices != [] {
      GreedyPlanAt(lengths, order, shapes, plan, k);
    }
  }

  /** So the plan for given lengths and shapes is unique, with every batch in the tightest and then narrowest of the
      cells that take the most responses. */
  lemma PlanIsUnique(lengths: seq<int>, shapes: seq<Cell>, a: seq<Batch>, b: seq<Batch>)
    requires GreedyPlan(lengths, LengthOrder(lengths), shapes, a) && Flatten(a) == LengthOrder(lengths)
    requires GreedyPlan(lengths, LengthOrder(lengths), shapes, b) && Flatten(b) == LengthOrder(lengths)
    ensures a == b
  {
    hide GreedyPlan, Flatten;
    var order := LengthOrder(lengths);
    var k := if |a| < |b| then |a| else |b|;
    GreedyPlansAgree(lengths, order, shapes, a, b, k);
    NoBatchIsEmpty(lengths, order, shapes, a);
    NoBatchIsEmpty(lengths, order, shapes, b);
    LongerFlattens(a, k);
    LongerFlattens(b, k);
    assert a[..|a|] == a && b[..|b|] == b;
  }

  /** A set of responses that one batch of shape `cell` can hold. */
  ghost predicate Fits(lengths: seq<int>, part: set<nat>, cell: Cell) {
    && |part| <= cell.width
    && forall i :: i in part ==> i < |lengths| && lengths[i] <= cell.tokens
  }

  ghost predicate Packed(parts: seq<set<nat>>, i: nat) {
    exists k :: 0 <= k < |parts| && i in parts[k]
  }

  ghost predicate SomeCellFits(lengths: seq<int>, shapes: seq<Cell>, part: set<nat>) {
    exists cell :: cell in shapes && Fits(lengths, part, cell)
  }

  /** Any way at all to split the responses into batches that fit qualified cells. */
  ghost predicate IsPacking(lengths: seq<int>, shapes: seq<Cell>, parts: seq<set<nat>>) {
    && (forall j, k :: 0 <= j < k < |parts| ==> parts[j] !! parts[k])
    && (forall i: nat :: i < |lengths| ==> Packed(parts, i))
    && (forall k :: 0 <= k < |parts| ==> SomeCellFits(lengths, shapes, parts[k]))
  }

  // ----- the planner

  method CountFit(lengths: seq<int>, order: seq<nat>, cursor: nat, cell: Cell) returns (count: nat)
    requires forall p :: 0 <= p < |order| ==> order[p] < |lengths|
    requires cursor <= |order|
    ensures count == Reach(lengths, order, cursor, cell)
  {
    count := 0;
    while count < cell.width && cursor + count < |order| && lengths[order[cursor + count]] <= cell.tokens
      invariant cursor + count <= |order|
      invariant Reach(lengths, order, cursor, cell) == Reach(lengths, order, cursor, cell, count)
    {
      count := count + 1;
    }
  }

  datatype Candidate = Candidate(count: nat, cell: Cell)

  predicate Better(left: Candidate, right: Candidate) {
    left.count > right.count ||
    (left.count == right.count &&
     (left.cell.tokens < right.cell.tokens ||
      (left.cell.tokens == right.cell.tokens && left.cell.width < right.cell.width)))
  }

  /** The candidate that takes the most responses; of those the one with the fewest tokens, then the narrowest. */
  method BestCandidate(candidates: seq<Candidate>) returns (best: Candidate)
    requires candidates != []
    ensures best in candidates
    ensures forall c :: c in candidates ==> !Better(c, best)
  {
    best := candidates[0];
    for k := 1 to |candidates|
      invariant best in candidates
      invariant forall b :: 0 <= b < k ==> !Better(candidates[b], best)
    {
      if Better(candidates[k], best) {
        best := candidates[k];
      }
    }
  }

  /** Offer every cell that takes at least one response. */
  method Candidates(lengths: seq<int>, order: seq<nat>, shapes: seq<Cell>, cursor: nat)
    returns (candidates: seq<Candidate>)
    requires forall p :: 0 <= p < |order| ==> order[p] < |lengths|
    requires cursor <= |order|
    ensures forall c :: c in candidates ==> c.cell in shapes && 0 < c.count == Reach(lengths, order, cursor, c.cell)
    ensures forall cell :: cell in shapes && Reach(lengths, order, cursor, cell) != 0 ==>
              Candidate(Reach(lengths, order, cursor, cell), cell) in candidates
  {
    candidates := [];
    for k := 0 to |shapes|
      invariant forall c :: c in candidates ==> c.cell in shapes && 0 < c.count == Reach(lengths, order, cursor, c.cell)
      invariant forall cell :: cell in shapes[..k] && Reach(lengths, order, cursor, cell) != 0 ==>
                  Candidate(Reach(lengths, order, cursor, cell), cell) in candidates
    {
      var count := CountFit(lengths, order, cursor, shapes[k]);
      if count != 0 {
        candidates := candidates + [Candidate(count, shapes[k])];
      }
    }
  }

  method ChooseCell(lengths: seq<int>, order: seq<nat>, shapes: seq<Cell>, cursor: nat) returns (count: nat, cell: Cell)
    requires forall p :: 0 <= p < |order| ==> order[p] < |lengths|
    requires ValidCells(shapes)
    requires cursor < |order| && Covered(lengths[order[cursor]], shapes)
    ensures 0 < count && cursor + count <= |order|
    ensures GreedyBatch(lengths, order, shapes, cursor, Batch(order[cursor..cursor + count], Some(cell)))
  {
    var candidates := Candidates(lengths, order, shapes, cursor);
    ghost var w :| 0 <= w < |shapes| && lengths[order[cursor]] <= shapes[w].tokens;
    assert Reach(lengths, order, cursor, shapes[w]) != 0;
    var best := BestCandidate(candidates);
    count, cell := best.count, best.cell;
    assert |order[cursor..cursor + count]| == count;
    forall other | other in shapes
      ensures Reach(lengths, order, cursor, other) <= count
      ensures Reach(lengths, order, cursor, other) == count ==>
                cell.tokens < other.tokens || (cell.tokens == other.tokens && cell.width <= other.width)
    {
      assert !Better(Candidate(count, other), best) || Candidate(count, other) !in candidates;
    }
  }

  /** With no shapes, consecutive slices of `fixedSize` responses. */
  method PlanFixed(lengths: seq<int>, fixedSize: nat) returns (plan: seq<Batch>)
    requires ValidRequest(lengths, fixedSize)
    ensures Flatten(plan) == seq(|lengths|, i requires 0 <= i < |lengths| => i)
    ensures forall k :: 0 <= k < |plan| ==> plan[k].cell == None && 1 <= |plan[k].indices| <= fixedSize
    ensures forall k :: 0 <= k < |plan| - 1 ==> |plan[k].indices| == fixedSize
  {
    plan := [];
    var start := 0;
    while start < |lengths|
      invariant 0 <= start
      invariant |Flatten(plan)| == if start <= |lengths| then start else |lengths|
      invariant forall i :: 0 <= i < |Flatten(plan)| ==> Flatten(plan)[i] == i
      invariant forall k :: 0 <= k < |plan| ==> plan[k].cell == None && 1 <= |plan[k].indices| <= fixedSize
      invariant forall k :: 0 <= k < |plan| && (k < |plan| - 1 || start <= |lengths|) ==> |plan[k].indices| == fixedSize
    {
      var stop := if start + fixedSize < |lengths| then start + fixedSize else |lengths|;
      var batch := Batch(seq(stop - start, i requires 0 <= i < stop - start => start + i), None);
      assert (plan + [batch])[..|plan|] == plan;
      plan := plan + [batch];
      start := start + fixedSize;
    }
  }

  /** With shapes, repeatedly take the best batch off the front of the sorted responses. */
  method PlanGreedy(lengths: seq<int>, cells: seq<Cell>) returns (planned: seq<Batch>)
    requires ValidCells(cells) && CoversAll(lengths, cells)
    ensures Flatten(planned) == LengthOrder(lengths)
    ensures GreedyPlan(lengths, LengthOrder(lengths), cells, planned)
  {
    hide GreedyBatch, GreedyPlan, CoversAll, Covered, ValidCells;
    var order := LengthOrder(lengths);
    var cursor := 0;
    planned := [];
    NothingPlanned(lengths, order, cells);
    while cursor < |order|
      invariant cursor == |Flatten(planned)| <= |order|
      invariant Flatten(planned) == order[..cursor]
      invariant GreedyPlan(lengths, order, cells, planned)
    {
      CoveredAt(lengths, cells, order[cursor]);
      var count, cell := ChooseCell(lengths, order, cells, cursor);
      var batch := Batch(order[cursor..cursor + count], Some(cell));
      ExtendGreedy(lengths, order, cells, planned, batch);
      planned := planned + [batch];
      cursor := cursor + count;
    }
  }

  lemma NothingPlanned(lengths: seq<int>, order: seq<nat>, cells: seq<Cell>)
    requires forall p :: 0 <= p < |order| ==> order[p] < |lengths|
    ensures GreedyPlan(lengths, order, cells, [])
  {
  }

  lemma CoveredAt(lengths: seq<int>, cells: seq<Cell>, i: nat)
    requires CoversAll(lengths, cells) && i < |lengths|
    ensures Covered(lengths[i], cells)
  {
  }

  lemma ExtendGreedy(lengths: seq<int>, order: seq<nat>, cells: seq<Cell>, planned: seq<Batch>, batch: Batch)
    requires forall p :: 0 <= p < |order| ==> order[p] < |lengths|
    requires GreedyPlan(lengths, order, cells, planned)
    requires |Flatten(planned)| <= |order| && Flatten(planned) == order[..|Flatten(planned)|]
    requires GreedyBatch(lengths, order, cells, |Flatten(planned)|, batch)
    ensures GreedyPlan(lengths, order, cells, planned + [batch])
    ensures Flatten(planned + [batch]) == order[..|Flatten(planned)| + |batch.indices|]
  {
    assert (planned + [batch])[..|planned|] == planned;
  }

  method PlanMicrobatches(lengths: seq<int>, fixedSize: int, shapes: Option<seq<Cell>>)
    returns (result: Result<seq<Batch>, PlanError>)
    ensures result == Err(InvalidRequest) <==> !ValidRequest(lengths, fixedSize)
    ensures result == Err(InvalidCells) <==>
              ValidRequest(lengths, fixedSize) && shapes.Some? && !ValidCells(shapes.value)
    ensures result == Err(UncoveredLength) <==>
              ValidRequest(lengths, fixedSize) && shapes.Some? && ValidCells(shapes.value) && !CoversAll(lengths, shapes.value)
    ensures result.Ok? && shapes.None? ==>
              && Flatten(result.value) == seq(|lengths|, i requires 0 <= i < |lengths| => i)
              && forall k :: 0 <= k < |result.value| ==> 1 <= |result.value[k].indices| <= fixedSize
    ensures result.Ok? && shapes.Some? ==>
              && Flatten(result.value) == LengthOrder(lengths)
              && GreedyPlan(lengths, LengthOrder(lengths), shapes.value, result.value)
              && forall parts :: IsPacking(lengths, shapes.value, parts) ==> |result.value| <= |parts|
  {
    if !ValidRequest(lengths, fixedSize) {
      return Err(InvalidRequest);
    }
    if shapes.None? {
      var fixedPlan := PlanFixed(lengths, fixedSize);
      return Ok(fixedPlan);
    }
    if !ValidCells(shapes.value) {
      return Err(InvalidCells);
    }
    if !CoversAll(lengths, shapes.value) {
      return Err(UncoveredLength);
    }
    var planned := PlanGreedy(lengths, shapes.value);
    forall parts | IsPacking(lengths, shapes.value, parts) ensures |planned| <= |parts| {
      GreedyIsMinimal(lengths, shapes.value, planned, parts);
    }
    return Ok(planned);
  }

  // ----- optimality: greedy stays ahead of every packing

  function TotalSize(parts: seq<set<nat>>): nat {
    if parts == [] then 0 else |parts[0]| + TotalSize(parts[1..])
  }

  function Union(parts: seq<set<nat>>): set<nat> {
    if parts == [] then {} else parts[0] + Union(parts[1..])
  }

  lemma {:induction false} UnionMembers(parts: seq<set<nat>>, i: nat)
    ensures i in Union(parts) <==> Packed(parts, i)
  {
    if parts != [] {
      UnionMembers(parts[1..], i);
      if k :| 0 <= k < |parts| && i in parts[k] {
        assert k == 0 || i in parts[1..][k - 1];
      }
      if k :| 0 <= k < |parts[1..]| && i in parts[1..][k] {
        assert i in parts[k + 1];
      }
    }
  }

  lemma {:induction false} DisjointSize(parts: seq<set<nat>>)
    requires forall j, k :: 0 <= j < k < |parts| ==> parts[j] !! parts[k]
    ensures |Union(parts)| == TotalSize(parts)
  {
    if parts != [] {
      DisjointSize(parts[1..]);
      forall i | i in parts[0] ensures i !in Union(parts[1..]) {
        UnionMembers(parts[1..], i);
      }
    }
  }

  lemma {:induction false} TotalSizeWithout(parts: seq<set<nat>>, k: nat)
    requires k < |parts|
    ensures TotalSize(parts) == TotalSize(parts[..k] + parts[k + 1..]) + |parts[k]|
  {
    var rest := parts[..k] + parts[k + 1..];
    if k == 0 {
      assert rest == parts[1..];
    } else {
      TotalSizeWithout(parts[1..], k - 1);
      assert rest[1..] == parts[1..][..k - 1] + parts[1..][k..];
    }
  }

  lemma {:induction false} WidestBound(cells: seq<Cell>) returns (k: nat)
    requires cells != []
    ensures k < |cells| && forall j :: 0 <= j < |cells| ==> cells[j].tokens <= cells[k].tokens
  {
    k := 0;
    if |cells| > 1 {
      var rest := WidestBound(cells[1..]);
      k := if cells[1..][rest].tokens > cells[0].tokens then rest + 1 else 0;
      assert forall j :: 1 <= j < |cells| ==> cells[j] == cells[1..][j - 1];
    }
  }

  lemma {:induction false} ElementsBound(s: seq<nat>, elements: set<nat>)
    requires forall i :: i in elements ==> i in s
    ensures |elements| <= |s|
  {
    if s != [] {
      ElementsBound(s[1..], elements - {s[0]});
    } else {
      assert elements == {};
    }
  }

  /** If `size` different responses are at most `bound` long, so is the one in sorted place size-1. */
  lemma ShortResponsesComeFirst(lengths: seq<int>, short: set<nat>, bound: int)
    requires short != {} && |short| <= |lengths|
    requires forall i :: i in short ==> i < |lengths| && lengths[i] <= bound
    ensures lengths[LengthOrder(lengths)[|short| - 1]] <= bound
  {
    var order := LengthOrder(lengths);
    var last := |short| - 1;
    if lengths[order[last]] > bound {
      forall i | i in short ensures i in order[..last] {
        var p := LengthOrderPlaces(lengths, i);
        if last < p {
          LengthOrderSorts(lengths, last, p);
        }
        assert order[..last][p] == i;
      }
      ElementsBound(order[..last], short);
    }
  }

  ghost function CoveredAfter(plan: seq<Batch>, m: nat): nat {
    |Flatten(if m < |plan| then plan[..m] else plan)|
  }

  /** If the first m batches already hold all but `extra` of the `total` shortest responses, and one cell
      could take `extra` of them, then one more batch holds them all. */
  lemma OneBatchFurther(
    lengths: seq<int>, shapes: seq<Cell>, plan: seq<Batch>, m: nat, cell: Cell, total: nat, extra: nat)
    requires Flatten(plan) == LengthOrder(lengths)
    requires GreedyPlan(lengths, LengthOrder(lengths), shapes, plan)
    requires cell in shapes && extra <= cell.width
    requires total <= CoveredAfter(plan, m) + extra && total <= |lengths|
    requires forall p :: 0 <= p < total ==> lengths[LengthOrder(lengths)[p]] <= cell.tokens
    ensures total <= CoveredAfter(plan, m + 1)
  {
    if m < |plan| {
      var cursor := CoveredAfter(plan, m);
      GreedyPlanAt(lengths, LengthOrder(lengths), shapes, plan, m);
      FlattenNext(plan, m);
      ReachesFurther(lengths, LengthOrder(lengths), shapes, plan[m], cursor, cell, total, extra);
    }
  }

  lemma FlattenNext(plan: seq<Batch>, m: nat)
    requires m < |plan|
    ensures CoveredAfter(plan, m + 1) == |Flatten(plan[..m])| + |plan[m].indices|
  {
    assert plan[..m + 1][..m] == plan[..m];
    assert m + 1 == |plan| ==> plan[..m + 1] == plan;
  }

  lemma ReachesFurther(
    lengths: seq<int>, order: seq<nat>, shapes: seq<Cell>, batch: Batch, cursor: nat, cell: Cell, total: nat, extra: nat)
    requires forall p :: 0 <= p < |order| ==> order[p] < |lengths|
    requires GreedyBatch(lengths, order, shapes, cursor, batch)
    requires cell in shapes && extra <= cell.width
    requires total <= |order| && total <= cursor + extra
    requires forall p :: 0 <= p < total ==> lengths[order[p]] <= cell.tokens
    ensures total <= cursor + |batch.indices|
  {
    ReachIsMaximal(lengths, order, cursor, cell);
  }

  lemma {:induction false} GreedyStaysAhead(
    lengths: seq<int>, shapes: seq<Cell>, plan: seq<Batch>, parts: seq<set<nat>>, cells: seq<Cell>)
    requires Flatten(plan) == LengthOrder(lengths)
    requires GreedyPlan(lengths, LengthOrder(lengths), shapes, plan)
    requires forall j, k :: 0 <= j < k < |parts| ==> parts[j] !! parts[k]
    requires |cells| == |parts|
    requires forall k :: 0 <= k < |parts| ==> cells[k] in shapes && Fits(lengths, parts[k], cells[k])
    ensures TotalSize(parts) <= CoveredAfter(plan, |parts|)
    decreases |parts|
  {
    hide GreedyPlan, LengthOrder, Flatten;
    if parts != [] {
      var k := WidestBound(cells);
      GreedyStaysAhead(lengths, shapes, plan, parts[..k] + parts[k + 1..], cells[..k] + cells[k + 1..]);
      TotalSizeWithout(parts, k);
      TotalIsShort(lengths, parts, cells[k].tokens);
      OneBatchFurther(lengths, shapes, plan, |parts| - 1, cells[k], TotalSize(parts), |parts[k]|);
    }
  }

  /** Disjoint parts whose responses all respect one bound hold only responses from the sorted prefix of that size. */
  lemma TotalIsShort(lengths: seq<int>, parts: seq<set<nat>>, bound: int)
    requires forall j, k :: 0 <= j < k < |parts| ==> parts[j] !! parts[k]
    requires forall k :: 0 <= k < |parts| ==> AllShort(lengths, parts[k], bound)
    ensures TotalSize(parts) <= |lengths|
    ensures forall p :: 0 <= p < TotalSize(parts) ==> lengths[LengthOrder(lengths)[p]] <= bound
  {
    forall i: nat | i in Union(parts) ensures i < |lengths| && lengths[i] <= bound {
      UnionMembers(parts, i);
      var k :| 0 <= k < |parts| && i in parts[k];
      assert AllShort(lengths, parts[k], bound);
    }
    DisjointSize(parts);
    ShortPrefix(lengths, Union(parts), bound);
  }

  ghost predicate AllShort(lengths: seq<int>, part: set<nat>, bound: int) {
    forall i :: i in part ==> i < |lengths| && lengths[i] <= bound
  }

  lemma ShortPrefix(lengths: seq<int>, short: set<nat>, bound: int)
    requires AllShort(lengths, short, bound)
    ensures |short| <= |lengths|
    ensures forall p :: 0 <= p < |short| ==> lengths[LengthOrder(lengths)[p]] <= bound
  {
    forall i | i in short ensures i in LengthOrder(lengths) {
      var p := LengthOrderPlaces(lengths, i);
    }
    ElementsBound(LengthOrder(lengths), short);
    forall p | 0 <= p < |short| ensures lengths[LengthOrder(lengths)[p]] <= bound {
      ShortResponsesComeFirst(lengths, short, bound);
      if p < |short| - 1 {
        LengthOrderSorts(lengths, p, |short| - 1);
      }
    }
  }

  lemma {:induction false} ChosenCells(lengths: seq<int>, shapes: seq<Cell>, parts: seq<set<nat>>)
    returns (cells: seq<Cell>)
    requires forall k :: 0 <= k < |parts| ==> SomeCellFits(lengths, shapes, parts[k])
    ensures |cells| == |parts|
    ensures forall k :: 0 <= k < |parts| ==> cells[k] in shapes && Fits(lengths, parts[k], cells[k])
  {
    cells := [];
    if parts != [] {
      var last := |parts| - 1;
      var part := parts[last];
      assert SomeCellFits(lengths, shapes, part);
      var cell :| cell in shapes && Fits(lengths, part, cell);
      cells := ChosenCells(lengths, shapes, parts[..last]);
      cells := cells + [cell];
    }
  }

  lemma {:induction false} CoveringAllTakesAll(
    lengths: seq<int>, shapes: seq<Cell>, plan: seq<Batch>, m: nat)
    requires GreedyPlan(lengths, LengthOrder(lengths), shapes, plan)
    requires |Flatten(plan)| <= CoveredAfter(plan, m)
    ensures |plan| <= m
  {
    if m < |plan| {
      GreedyPlanAt(lengths, LengthOrder(lengths), shapes, plan, m);
      FlattenNext(plan, m);
      FlattenGrows(plan, m + 1);
    }
  }

  lemma {:induction false} FlattenGrows(plan: seq<Batch>, m: nat)
    requires m <= |plan|
    ensures |Flatten(plan[..m])| <= |Flatten(plan)|
    decreases |plan|
  {
    if m < |plan| {
      FlattenGrows(plan[..|plan| - 1], m);
      assert plan[..|plan| - 1][..m] == plan[..m];
    } else {
      assert plan[..m] == plan;
    }
  }

  lemma PackingHoldsAll(lengths: seq<int>, shapes: seq<Cell>, parts: seq<set<nat>>)
    requires IsPacking(lengths, shapes, parts)
    ensures |LengthOrder(lengths)| <= TotalSize(parts)
  {
    DisjointSize(parts);
    forall i | i in LengthOrder(lengths) ensures i in Union(parts) {
      assert Packed(parts, i);
      UnionMembers(parts, i);
    }
    DistinctElementsFit(lengths, LengthOrder(lengths), Union(parts));
  }

  /** The number of planned batches is least over all packings. */
  lemma GreedyIsMinimal(lengths: seq<int>, shapes: seq<Cell>, plan: seq<Batch>, parts: seq<set<nat>>)
    requires Flatten(plan) == LengthOrder(lengths)
    requires GreedyPlan(lengths, LengthOrder(lengths), shapes, plan)
    requires IsPacking(lengths, shapes, parts)
    ensures |plan| <= |parts|
  {
    hide GreedyPlan, LengthOrder, Flatten, CoveredAfter;
    var cells := ChosenCells(lengths, shapes, parts);
    GreedyStaysAhead(lengths, shapes, plan, parts, cells);
    PackingHoldsAll(lengths, shapes, parts);
    CoveringAllTakesAll(lengths, shapes, plan, |parts|);
  }

  lemma {:induction false} DistinctElementsFit(lengths: seq<int>, s: seq<nat>, elements: set<nat>)
    requires s <= LengthOrder(lengths)
    requires forall i :: i in s ==> i in elements
    ensures |s| <= |elements|
  {
    if s != [] {
      var front, last := s[..|s| - 1], s[|s| - 1];
      forall i | i in front ensures i in elements - {last} {
        var p :| 0 <= p < |front| && front[p] == i;
        LengthOrderSorts(lengths, p, |front|);
      }
      DistinctElementsFit(lengths, front, elements - {last});
    }
  }

  /** Every response appears in exactly one batch, at one place of it, and that batch respects its cell. */
  lemma PlanCoversOnce(lengths: seq<int>, shapes: seq<Cell>, plan: seq<Batch>)
    requires Flatten(plan) == LengthOrder(lengths)
    requires GreedyPlan(lengths, LengthOrder(lengths), shapes, plan)
    ensures forall i: nat :: i < |lengths| ==> i in Flatten(plan)
    ensures forall p, q :: 0 <= p < q < |Flatten(plan)| ==> Flatten(plan)[p] != Flatten(plan)[q]
    ensures forall k :: 0 <= k < |plan| ==>
              && plan[k].cell.Some? && plan[k].cell.value in shapes
              && 1 <= |plan[k].indices| <= plan[k].cell.value.width
              && forall i :: i in plan[k].indices ==> i < |lengths| && lengths[i] <= plan[k].cell.value.tokens
  {
    hide Flatten, LengthOrder, Reach;
    var order := LengthOrder(lengths);
    forall i: nat | i < |lengths| ensures i in order {
      var p := LengthOrderPlaces(lengths, i);
    }
    forall p, q | 0 <= p < q < |order| ensures order[p] != order[q] {
      LengthOrderSorts(lengths, p, q);
    }
    forall k | 0 <= k < |plan|
      ensures && plan[k].cell.Some? && plan[k].cell.value in shapes
              && 1 <= |plan[k].indices| <= plan[k].cell.value.width
              && forall i :: i in plan[k].indices ==> i < |lengths| && lengths[i] <= plan[k].cell.value.tokens
    {
      var cursor := |Flatten(plan[..k])|;
      GreedyPlanAt(lengths, order, shapes, plan, k);
      ReachIsMaximal(lengths, order, cursor, plan[k].cell.value);
    }
  }

  // ----- packing leaves the objective unchanged

  function SumAt(loss: seq<real>, indices: seq<nat>): real
    requires forall p :: 0 <= p < |indices| ==> indices[p] < |loss|
  {
    if indices == [] then 0.0 else SumAt(loss, indices[..|indices| - 1]) + loss[indices[|indices| - 1]]
  }

  /** The accumulated objective: per batch the sum of its responses' losses over the group size. */
  function Accumulated(loss: seq<real>, plan: seq<Batch>, groupSize: real): real
    requires forall k, p :: 0 <= k < |plan| && 0 <= p < |plan[k].indices| ==> plan[k].indices[p] < |loss|
    requires groupSize != 0.0
  {
    if plan == [] then 0.0
    else Accumulated(loss, plan[..|plan| - 1], groupSize) + SumAt(loss, plan[|plan| - 1].indices) / groupSize
  }

  function Sum(loss: seq<real>): real {
    if loss == [] then 0.0 else Sum(loss[..|loss| - 1]) + loss[|loss| - 1]
  }

  lemma {:induction false} SumAtConcat(loss: seq<real>, left: seq<nat>, right: seq<nat>)
    requires forall p :: 0 <= p < |left| ==> left[p] < |loss|
    requires forall p :: 0 <= p < |right| ==> right[p] < |loss|
    ensures SumAt(loss, left + right) == SumAt(loss, left) + SumAt(loss, right)
  {
    if right == [] {
      assert left + right == left;
    } else {
      SumAtConcat(loss, left, right[..|right| - 1]);
      assert (left + right)[..|left + right| - 1] == left + right[..|right| - 1];
    }
  }

  lemma {:induction false} InsertSum(loss: seq<real>, keys: seq<Key>, order: seq<nat>, x: nat)
    requires |keys| == |loss| && x < |keys|
    requires forall p :: 0 <= p < |order| ==> order[p] < |keys|
    ensures forall p :: 0 <= p < |Insert(keys, order, x)| ==> Insert(keys, order, x)[p] < |keys|
    ensures SumAt(loss, Insert(keys, order, x)) == SumAt(loss, order) + loss[x]
  {
    SumAtConcat(loss, [x], order);
    assert [x][..0] == [];
    if order != [] && !Before(keys, x, order[0]) {
      InsertSum(loss, keys, order[1..], x);
      SumAtConcat(loss, [order[0]], order[1..]);
      SumAtConcat(loss, [order[0]], Insert(keys, order[1..], x));
      assert order == [order[0]] + order[1..];
    } else {
      assert order == [] ==> [x] + order == [x];
    }
  }

  lemma {:induction false} OrderSum(loss: seq<real>, keys: seq<Key>, n: nat)
    requires |keys| == |loss| && n <= |keys|
    ensures SumAt(loss, OrderUpTo(keys, n)) == Sum(loss[..n])
  {
    if n > 0 {
      OrderSum(loss, keys, n - 1);
      InsertSum(loss, keys, OrderUpTo(keys, n - 1), n - 1);
      assert loss[..n][..n - 1] == loss[..n - 1];
    }
  }

  lemma QuotientSum(a: real, b: real, c: real)
    requires c != 0.0
    ensures (a + b) / c == a / c + b / c
  {
  }

  lemma {:induction false} FlattenSum(loss: seq<real>, plan: seq<Batch>, groupSize: real)
    requires forall k, p :: 0 <= k < |plan| && 0 <= p < |plan[k].indices| ==> plan[k].indices[p] < |loss|
    requires groupSize != 0.0
    ensures forall p :: 0 <= p < |Flatten(plan)| ==> Flatten(plan)[p] < |loss|
    ensures Accumulated(loss, plan, groupSize) == SumAt(loss, Flatten(plan)) / groupSize
  {
    if plan != [] {
      var front, last := plan[..|plan| - 1], plan[|plan| - 1].indices;
      FlattenSum(loss, front, groupSize);
      assert forall p :: 0 <= p < |last| ==> last[p] < |loss|;
      SumAtConcat(loss, Flatten(front), last);
      QuotientSum(SumAt(loss, Flatten(front)), SumAt(loss, last), groupSize);
    }
  }

  /** However the responses are sorted and packed, the accumulated objective is their mean:
      every response keeps the weight it would have alone. */
  lemma PackingPreservesObjective(
    lengths: seq<int>, shapes: seq<Cell>, plan: seq<Batch>, loss: seq<real>, groupSize: real)
    requires Flatten(plan) == LengthOrder(lengths)
    requires GreedyPlan(lengths, LengthOrder(lengths), shapes, plan)
    requires |loss| == |lengths| && groupSize != 0.0
    ensures forall k, p :: 0 <= k < |plan| && 0 <= p < |plan[k].indices| ==> plan[k].indices[p] < |loss|
    ensures Accumulated(loss, plan, groupSize) == Sum(loss) / groupSize
  {
    PlanCoversOnce(lengths, shapes, plan);
    forall k, p | 0 <= k < |plan| && 0 <= p < |plan[k].indices| ensures plan[k].indices[p] < |loss| {
      assert plan[k].indices[p] in plan[k].indices;
    }
    FlattenSum(loss, plan, groupSize);
    var keys := LengthKeys(lengths);
    OrderSum(loss, keys, |keys|);
    assert loss[..|keys|] == loss;
  }
}
