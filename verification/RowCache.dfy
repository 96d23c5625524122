/** The direct-mapped Engram row cache (dsv41_train/engram_offload.py).

    A table is a mutable weight with a version counter, bumped by in-place
    updates, and a signature, its storage address and shape, which changes when
    its storage is replaced but may come back later. A lookup on CUDA moves
    missing rows in chunks; between starting a transfer and using it, another
    caller may clear the cache or change the table, which the transfer ticket
    must detect. `Replay` runs any sequence of operations and shows that every
    successful read is a plain lookup, as long as no storage returns to an
    address; `StaleRead` shows what happens if one does. */
module RowCache {
  import opened Basics
  import opened RowIds
  import opened Wrappers

  type Positive = n: nat | 0 < n witness 1

  datatype Signature = Signature(address: nat, count: nat)

  /** A table's contents and where they are. */
  datatype Stored<Row> = Stored(rows: seq<Row>, address: nat)

  class Table<Row> {
    const rowBytes: Positive
    var rows: seq<Row>
    var version: nat
    var address: nat
    /** Every address the storage has had. */
    ghost var history: seq<nat>

    ghost predicate Valid()
      reads this
    {
      history != [] && history[|history| - 1] == address
    }

    function Sign(): Signature
      reads this
    {
      Signature(address, |rows|)
    }

    function Store(): Stored<Row>
      reads this
    {
      Stored(rows, address)
    }

    constructor (rows: seq<Row>, rowBytes: Positive, address: nat)
      ensures this.rows == rows && this.rowBytes == rowBytes && this.address == address
      ensures Valid() && history == [address] && version == 0
    {
      this.rows, this.rowBytes, this.address, version := rows, rowBytes, address, 0;
      history := [address];
    }

    /** An in-place write: same storage and shape, next version. */
    method Update(newRows: seq<Row>)
      requires Valid() && |newRows| == |rows|
      modifies this`rows, this`version
      ensures Valid() && rows == newRows && version == old(version) + 1
    {
      rows, version := newRows, version + 1;
    }

    /** New storage, of any size, under the same parameter object. The old storage is still there, so the new one
        has another address. */
    method Replace(newRows: seq<Row>, newAddress: nat)
      requires Valid() && newAddress != address
      modifies this`rows, this`address, this`history
      ensures Valid() && rows == newRows && address == newAddress && history == old(history) + [newAddress]
    {
      rows, address, history := newRows, newAddress, history + [newAddress];
    }
  }

  datatype ReadError = BudgetTooSmall | OutOfRange | ChangedDuringLookup

  /** What another caller does while a transfer is in flight. */
  datatype Disturbance<Row> = Quiet | Clears | Updates(rows: seq<Row>) | Replaces(rows: seq<Row>, address: nat)

  /** An outstanding transfer: what it was started for, and the rows it staged. */
  datatype Ticket<Row> = Ticket(generation: nat, signature: Signature, version: nat, staged: seq<Row>)

  const TAG_BYTES := 8
  const STAGING_BYTES := 4 * 1048576

  /** The values of `ids` at the given positions. */
  function Select(ids: seq<int>, positions: seq<nat>): (r: seq<int>)
    requires forall k :: 0 <= k < |positions| ==> positions[k] < |ids|
    ensures |r| == |positions|
    ensures forall k :: 0 <= k < |positions| ==> r[k] == ids[positions[k]]
  {
    seq(|positions|, k requires 0 <= k < |positions| => ids[positions[k]])
  }

  /** The id that slot s keeps after installing a chunk: the last, so the largest, that maps to it. */
  function Winner(chunk: seq<int>, capacity: nat, s: nat): (w: Option<nat>)
    requires 0 < capacity
    ensures w.Some? ==> w.value < |chunk| && chunk[w.value] % capacity == s
    ensures w.Some? ==> forall k :: w.value < k < |chunk| ==> chunk[k] % capacity != s
    ensures w.None? ==> forall k :: 0 <= k < |chunk| ==> chunk[k] % capacity != s
  {
    if chunk == [] then None
    else if chunk[|chunk| - 1] % capacity == s then Some(|chunk| - 1)
    else Winner(chunk[..|chunk| - 1], capacity, s)
  }

  class Cache<Row(0)> {
    const budget: nat
    const cuda: bool
    var table: Table?<Row>
    var signature: Signature
    var version: Option<nat>
    /** Which of the table's storages the cache was bound to. */
    ghost var bound: nat
    var values: array<Row>
    var tags: array<int>
    var generation: nat
    var ticket: Option<Ticket<Row>>
    var hits: nat
    var misses: nat
    var transferred: nat
    var resident: nat

    /** Direct mapping within the byte budget. Empty arrays stand for buffers not yet allocated. */
    ghost predicate Valid()
      reads this, values, tags
    {
      && values.Length == tags.Length && values as object != tags as object
      && (table == null ==> tags.Length == 0)
      && (table != null ==> 0 < tags.Length && resident == tags.Length * (table.rowBytes + TAG_BYTES))
      && resident <= budget
      && (forall s :: 0 <= s < tags.Length ==>
            tags[s] == -1 || (0 <= tags[s] < signature.count && tags[s] % tags.Length == s))
      && (version.None? ==> forall s :: 0 <= s < tags.Length ==> tags[s] == -1)
    }

    /** As long as the table has neither version nor storage of its own since, every cached row is its row. */
    ghost predicate Coherent()
      reads this, values, tags, table
      requires values.Length == tags.Length
    {
      table != null ==>
        && table.Valid() && bound < |table.history| && signature.address == table.history[bound]
        && (version.Some? ==> version.value <= table.version)
        && (bound == |table.history| - 1 ==>
              signature == table.Sign() && (version == Some(table.version) ==> EntriesMatch(table.rows)))
    }

    /** The table looks as it did when the cache was bound to it. */
    ghost predicate Current()
      reads this, table
      requires table != null
    {
      signature == table.Sign() && version == Some(table.version)
    }

    /** It looks so, but has other storage that came back to the old address. */
    ghost predicate Aliased(weight: Table<Row>)
      reads this, weight
    {
      table == weight && signature == weight.Sign() && version == Some(weight.version) && bound != |weight.history| - 1
    }

    ghost predicate EntriesMatch(rows: seq<Row>)
      reads this, values, tags
      requires values.Length == tags.Length
    {
      forall s :: 0 <= s < tags.Length && tags[s] != -1 ==> 0 <= tags[s] < |rows| && values[s] == rows[tags[s]]
    }

    constructor (budget: nat, cuda: bool)
      ensures this.budget == budget && this.cuda == cuda
      ensures Valid() && Coherent() && ticket == None && fresh(values) && fresh(tags)
    {
      this.budget, this.cuda := budget, cuda;
      table, signature, version, bound := null, Signature(0, 0), None, 0;
      values, tags := new Row[0], new int[0];
      generation, ticket := 0, None;
      hits, misses, transferred, resident := 0, 0, 0, 0;
    }

    method FillTags()
      modifies tags
      ensures forall s :: 0 <= s < tags.Length ==> tags[s] == -1
    {
      for s := 0 to tags.Length
        invariant forall t :: 0 <= t < s ==> tags[t] == -1
      {
        tags[s] := -1;
      }
    }

    method Clear()
      modifies this`generation, this`ticket, this`version, tags
      ensures generation == old(generation) + 1 && ticket == None && version == None
      ensures forall s :: 0 <= s < tags.Length ==> tags[s] == -1
    {
      generation := generation + 1;
      ticket := None;
      FillTags();
      version := None;
    }

    function Capacity(weight: Table<Row>): nat
      reads weight
    {
      var affordable := budget / (weight.rowBytes + TAG_BYTES);
      if |weight.rows| < affordable then |weight.rows| else affordable
    }

    /** The cache has as many slots as the table has rows, or as the budget pays for, each with its tag. */
    lemma CapacityIsLargest(weight: Table<Row>, n: nat)
      ensures n <= Capacity(weight) <==> n <= |weight.rows| && n * (weight.rowBytes + TAG_BYTES) <= budget
    {
      FitsIff(budget, weight.rowBytes + TAG_BYTES, n);
    }

    static lemma FitsIff(total: nat, each: nat, n: nat)
      requires 0 < each
      ensures n <= total / each <==> n * each <= total
    {
      var whole := total / each;
      assert whole * each <= total < (whole + 1) * each;
      if n <= whole {
        Monotone(n, whole, each);
      } else {
        Monotone(whole + 1, n, each);
      }
    }

    /** Drop the old buffers and allocate empty ones for this table. */
    method Allocate(weight: Table<Row>, capacity: nat)
      requires 1 <= capacity == Capacity(weight) && weight.Valid()
      modifies this, tags
      ensures Valid() && Coherent()
      ensures table == weight && Current() && !Aliased(weight) && ticket == None
      ensures fresh(values) && fresh(tags)
      ensures hits == old(hits) && misses == old(misses) && transferred == old(transferred)
    {
      CapacityWithinBudget(capacity, weight.rowBytes + TAG_BYTES);
      NewBuffers(capacity);
      resident := capacity * (weight.rowBytes + TAG_BYTES);
      table, signature, version, bound := weight, weight.Sign(), Some(weight.version), |weight.history| - 1;
    }

    method NewBuffers(capacity: nat)
      modifies this`generation, this`ticket, this`version, this`values, this`tags, tags
      ensures ticket == None && version == None && fresh(values) && fresh(tags) && values as object != tags as object
      ensures values.Length == tags.Length == capacity && forall s :: 0 <= s < tags.Length ==> tags[s] == -1
    {
      Clear();
      values, tags := new Row[capacity], new int[capacity](_ => -1);
    }

    lemma CapacityWithinBudget(capacity: nat, entryBytes: nat)
      requires 0 < entryBytes && capacity <= budget / entryBytes
      ensures capacity * entryBytes <= budget
    {
      var whole := budget / entryBytes;
      assert whole * entryBytes <= budget;
      Monotone(capacity, whole, entryBytes);
    }

    static lemma Monotone(a: nat, b: nat, c: nat)
      requires a <= b
      ensures a * c <= b * c
    {
    }

    /** Bind the cache to the table as it now is: keep it, clear it, or allocate it anew. */
    method Validate(weight: Table<Row>) returns (ok: bool)
      requires Valid() && Coherent() && weight.Valid()
      modifies this, tags
      ensures Valid() && Coherent()
      ensures ok ==> table == weight && Current() && Aliased(weight) == old(Aliased(weight))
      ensures ok && old(Aliased(weight)) ==>
                values == old(values) && tags == old(tags) && tags[..] == old(tags[..]) && values[..] == old(values[..])
      ensures !ok <==> Capacity(weight) < 1 && !(old(table) == weight && old(signature) == weight.Sign())
      ensures !ok ==> tags == old(tags) && tags[..] == old(tags[..])
      ensures old(ticket).None? ==> ticket.None?
      ensures fresh(values) || values == old(values)
      ensures fresh(tags) || tags == old(tags)
      ensures hits == old(hits) && misses == old(misses) && transferred == old(transferred)
    {
      if table != weight || signature != weight.Sign() {
        var capacity := Capacity(weight);
        if capacity < 1 {
          return false;
        }
        Allocate(weight, capacity);
      } else if version != Some(weight.version) {
        Clear();
        version, bound := Some(weight.version), |weight.history| - 1;
      }
      return true;
    }

    /** Forget every entry after a lookup that must not be trusted. */
    method Poison()
      modifies this`version, this`ticket, tags
      ensures version == None && ticket == None
      ensures forall s :: 0 <= s < tags.Length ==> tags[s] == -1
    {
      FillTags();
      version, ticket := None, None;
    }

    /** `_install_rows` with its `_row_plan`: hand each requested position its row, and let the
        largest id of the chunk that maps to a slot take that slot. */
    method Install(output: array<Row>, ids: seq<int>, positions: seq<nat>, chunk: seq<int>, rows: seq<Row>)
      requires Valid() && 0 < tags.Length
      requires output.Length == |ids| && output != values && output as object != tags as object
      requires forall k :: 0 <= k < |positions| ==> positions[k] < |ids| && ids[positions[k]] in chunk
      requires InRange(chunk, signature.count) && |rows| == |chunk| && version.Some?
      modifies output, values, tags
      ensures Valid()
      ensures forall i :: 0 <= i < |ids| && i in positions ==> ids[i] in chunk && output[i] == rows[IndexOf(chunk, ids[i])]
      ensures forall i :: 0 <= i < |ids| && i !in positions ==> output[i] == old(output[i])
      ensures forall s :: 0 <= s < tags.Length ==>
                match Winner(chunk, tags.Length, s)
                case None => tags[s] == old(tags[s]) && values[s] == old(values[s])
                case Some(w) => tags[s] == chunk[w] && values[s] == rows[w]
    {
      HandOut(output, ids, positions, chunk, rows);
      TakeSlots(chunk, rows);
    }

    method HandOut(output: array<Row>, ids: seq<int>, positions: seq<nat>, chunk: seq<int>, rows: seq<Row>)
      requires output.Length == |ids| && |rows| == |chunk|
      requires forall k :: 0 <= k < |positions| ==> positions[k] < |ids| && ids[positions[k]] in chunk
      modifies output
      ensures forall i :: 0 <= i < |ids| && i in positions ==> ids[i] in chunk && output[i] == rows[IndexOf(chunk, ids[i])]
      ensures forall i :: 0 <= i < |ids| && i !in positions ==> output[i] == old(output[i])
    {
      for k := 0 to |positions|
        invariant forall j :: 0 <= j < k ==> output[positions[j]] == rows[IndexOf(chunk, ids[positions[j]])]
        invariant forall i :: 0 <= i < |ids| && i !in positions ==> output[i] == old(output[i])
      {
        output[positions[k]] := rows[IndexOf(chunk, ids[positions[k]])];
      }
    }

    method TakeSlots(chunk: seq<int>, rows: seq<Row>)
      requires Valid() && 0 < tags.Length && version.Some?
      requires InRange(chunk, signature.count) && |rows| == |chunk|
      modifies values, tags
      ensures Valid()
      ensures forall s :: 0 <= s < tags.Length ==>
                match Winner(chunk, tags.Length, s)
                case None => tags[s] == old(tags[s]) && values[s] == old(values[s])
                case Some(w) => tags[s] == chunk[w] && values[s] == rows[w]
    {
      for s := 0 to tags.Length
        invariant forall t :: 0 <= t < s ==>
                    match Winner(chunk, tags.Length, t)
                    case None => tags[t] == old(tags[t]) && values[t] == old(values[t])
                    case Some(w) => tags[t] == chunk[w] && values[t] == rows[w]
        invariant forall t :: s <= t < tags.Length ==> tags[t] == old(tags[t]) && values[t] == old(values[t])
      {
        var winner := Winner(chunk, tags.Length, s);
        if winner.Some? {
          values[s], tags[s] := rows[winner.value], chunk[winner.value];
        }
      }
    }

    /** How many of the requested ids the tags answer. */
    static function Answered(tags: seq<int>, ids: seq<int>): nat
      requires 0 < |tags|
    {
      if ids == [] then 0
      else
        var last := ids[|ids| - 1];
        Answered(tags, ids[..|ids| - 1]) + if tags[last % |tags|] == last then 1 else 0
    }

    /** Which requested positions the tags already answer. */
    method Classify(ids: seq<int>) returns (found: seq<nat>, missed: seq<nat>)
      requires 0 < tags.Length
      ensures forall k :: 0 <= k < |found| ==> found[k] < |ids|
      ensures forall k :: 0 <= k < |missed| ==> missed[k] < |ids|
      ensures forall i: nat :: i < |ids| ==> (i in found <==> tags[ids[i] % tags.Length] == ids[i])
      ensures forall i: nat :: i < |ids| ==> (i in missed <==> tags[ids[i] % tags.Length] != ids[i])
      ensures |found| == Answered(tags[..], ids) && |found| + |missed| == |ids|
    {
      found, missed := [], [];
      for i := 0 to |ids|
        invariant forall k :: 0 <= k < |found| ==> found[k] < i
        invariant forall k :: 0 <= k < |missed| ==> missed[k] < i
        invariant forall j: nat :: j < i ==> (j in found <==> tags[ids[j] % tags.Length] == ids[j])
        invariant forall j: nat :: j < i ==> (j in missed <==> tags[ids[j] % tags.Length] != ids[j])
        invariant |found| == Answered(tags[..], ids[..i]) && |found| + |missed| == i
      {
        assert ids[..i + 1][..i] == ids[..i];
        if tags[ids[i] % tags.Length] == ids[i] {
          found := found + [i];
        } else {
          missed := missed + [i];
        }
      }
      assert ids[..|ids|] == ids;
    }

    method CopyHits(output: array<Row>, ids: seq<int>, found: seq<nat>)
      requires Valid() && 0 < tags.Length && output != values
      requires output.Length == |ids|
      requires forall k :: 0 <= k < |found| ==> found[k] < |ids| && tags[ids[found[k]] % tags.Length] == ids[found[k]]
      modifies output
      ensures forall i :: 0 <= i < |ids| && i in found ==> output[i] == values[ids[i] % tags.Length]
      ensures forall i :: 0 <= i < |ids| && i !in found ==> output[i] == old(output[i])
    {
      for k := 0 to |found|
        invariant forall j :: 0 <= j < k ==> output[found[j]] == values[ids[found[j]] % tags.Length]
        invariant forall i :: 0 <= i < |ids| && i !in found ==> output[i] == old(output[i])
      {
        output[found[k]] := values[ids[found[k]] % tags.Length];
      }
    }

    /** Another caller's action between the start and the use of a transfer. */
    method Disturb(weight: Table<Row>, d: Disturbance<Row>)
      requires Valid() && ticket.Some? && weight.Valid()
      modifies this`generation, this`ticket, this`version, tags, weight
      ensures forall s :: 0 <= s < tags.Length ==> tags[s] == old(tags[s]) || tags[s] == -1
      ensures weight.Valid() && weight.Store() == Disturbed(old(weight.Store()), d)
      ensures !Applies(old(weight.Store()), d) ==>
                && SameTable(weight, old(weight.rows), old(weight.version), old(weight.history))
                && version == old(version) && generation == old(generation) && ticket == old(ticket)
                && tags[..] == old(tags[..])
      ensures Applies(old(weight.Store()), d) ==> !Fresh(weight) || !old(Fresh(weight))
      ensures weight.version >= old(weight.version) && old(weight.history) <= weight.history
    {
      match d
      case Quiet =>
      case Clears => Clear();
      case Updates(rows) => if |rows| == |weight.rows| { weight.Update(rows); }
      case Replaces(rows, address) => if address != weight.address { weight.Replace(rows, address); }
    }

    /** `_consume_transfer`'s test that an outstanding ticket is still for this cache and table state. */
    predicate Fresh(weight: Table<Row>)
      reads this, weight
    {
      && ticket.Some?
      && ticket.value.generation == generation
      && ticket.value.signature == weight.Sign()
      && ticket.value.version == weight.version
    }

    method BeginTransfer(weight: Table<Row>, chunk: seq<int>)
      requires ticket.None? && InRange(chunk, |weight.rows|)
      modifies this`ticket, this`transferred
      ensures ticket == Some(Ticket(generation, weight.Sign(), weight.version, Lookup(weight.rows, chunk)))
      ensures Fresh(weight)
      ensures transferred == old(transferred) + |chunk|
    {
      ticket := Some(Ticket(generation, weight.Sign(), weight.version, Lookup(weight.rows, chunk)));
      transferred := transferred + |chunk|;
    }

    function ChunkCapacity(weight: Table<Row>): nat
      reads weight
    {
      var affordable := (if budget < STAGING_BYTES then budget else STAGING_BYTES) / weight.rowBytes;
      if affordable < 1 then 1 else affordable
    }

    /** A chunk is as large as both the budget and the staging limit allow, but never less than a row. */
    lemma ChunkIsLargest(weight: Table<Row>, n: nat)
      ensures 1 <= ChunkCapacity(weight)
      ensures n <= ChunkCapacity(weight) <==> n <= 1 || (n * weight.rowBytes <= budget && n * weight.rowBytes <= STAGING_BYTES)
    {
      FitsIff(if budget < STAGING_BYTES then budget else STAGING_BYTES, weight.rowBytes, n);
    }

    /** Start moving a chunk of missing rows, copy the hits meanwhile, let others act, and check the ticket. */
    method StageChunk(
      weight: Table<Row>, ids: seq<int>, output: array<Row>, chunk: seq<int>, found: seq<nat>, first: bool,
      d: Disturbance<Row>) returns (ok: bool)
      requires Valid() && ticket.None? && 0 < tags.Length
      requires table == weight && Current() && weight.Valid()
      requires output.Length == |ids| && output != values && output as object != tags as object
      requires InRange(chunk, |weight.rows|)
      requires forall k :: 0 <= k < |found| ==> found[k] < |ids|
      requires first ==> forall k :: 0 <= k < |found| ==> tags[ids[found[k]] % tags.Length] == ids[found[k]] != -1
      modifies this`generation, this`ticket, this`version, this`transferred, tags, output, weight
      ensures transferred == old(transferred) + |chunk|
      ensures ok <==> !Applies(old(weight.Store()), d)
      ensures weight.Store() == Disturbed(old(weight.Store()), d)
      ensures weight.Valid() && weight.version >= old(weight.version) && old(weight.history) <= weight.history
      ensures ok ==>
                && Valid() && Current() && ticket.Some? && ticket.value.staged == Lookup(weight.rows, chunk)
                && tags[..] == old(tags[..]) && SameTable(weight, old(weight.rows), old(weight.version), old(weight.history))
                && (first ==> forall i :: 0 <= i < |ids| && i in found ==> output[i] == values[ids[i] % tags.Length])
                && (forall i :: 0 <= i < |ids| && (!first || i !in found) ==> output[i] == old(output[i]))
    {
      BeginTransfer(weight, chunk);
      if first {
        CopyHits(output, ids, found);
      }
      Disturb(weight, d);
      ok := Fresh(weight);
    }

    /** Move one chunk of missing rows: start, let others act, check the ticket, install. */
    method TransferChunk(
      weight: Table<Row>, ids: seq<int>, output: array<Row>, positions: seq<nat>, chunk: seq<int>,
      found: seq<nat>, first: bool, d: Disturbance<Row>) returns (ok: bool)
      requires Valid() && ticket.None? && 0 < tags.Length
      requires table == weight && Current() && weight.Valid()
      requires output.Length == |ids| && output != values && output as object != tags as object
      requires InRange(chunk, |weight.rows|)
      requires forall k :: 0 <= k < |positions| ==> positions[k] < |ids| && ids[positions[k]] in chunk
      requires forall k :: 0 <= k < |found| ==> found[k] < |ids| && found[k] !in positions
      requires first ==> forall k :: 0 <= k < |found| ==> tags[ids[found[k]] % tags.Length] == ids[found[k]] != -1
      modifies this, values, tags, output, weight
      ensures values == old(values) && tags == old(tags) && table == old(table) && resident == old(resident) && bound == old(bound)
      ensures signature == old(signature) && hits == old(hits) && misses == old(misses)
      ensures transferred == old(transferred) + |chunk|
      ensures ok <==> !Applies(old(weight.Store()), d)
      ensures weight.Store() == Disturbed(old(weight.Store()), d)
      ensures weight.Valid() && weight.version >= old(weight.version) && old(weight.history) <= weight.history
      ensures ok ==>
                && Valid() && ticket.None? && Current()
                && (old(EntriesMatch(weight.rows)) ==> EntriesMatch(weight.rows))
                && SameTable(weight, old(weight.rows), old(weight.version), old(weight.history))
                && (forall i :: 0 <= i < |ids| && i in positions ==>
                      0 <= ids[i] < |weight.rows| && output[i] == weight.rows[ids[i]])
                && (first ==> forall i :: 0 <= i < |ids| && i in found ==> output[i] == old(values[ids[i] % tags.Length]))
                && (forall i :: 0 <= i < |ids| && i !in positions && (!first || i !in found) ==> output[i] == old(output[i]))
    {
      ok := StageChunk(weight, ids, output, chunk, found, first, d);
      if !ok {
        return false;
      }
      InstallRows(weight, ids, output, positions, chunk, ticket.value.staged);
      ticket := None;
      return true;
    }

    /** Install rows just looked up in the table. */
    method InstallRows(
      weight: Table<Row>, ids: seq<int>, output: array<Row>, positions: seq<nat>, chunk: seq<int>, rows: seq<Row>)
      requires Valid() && 0 < tags.Length && table == weight && Current()
      requires InRange(chunk, |weight.rows|) && rows == Lookup(weight.rows, chunk)
      requires output.Length == |ids| && output != values && output as object != tags as object
      requires forall k :: 0 <= k < |positions| ==> positions[k] < |ids| && ids[positions[k]] in chunk
      modifies output, values, tags
      ensures Valid()
      ensures old(EntriesMatch(weight.rows)) ==> EntriesMatch(weight.rows)
      ensures forall i :: 0 <= i < |ids| && i in positions ==>
                0 <= ids[i] < |weight.rows| && output[i] == weight.rows[ids[i]]
      ensures forall i :: 0 <= i < |ids| && i !in positions ==> output[i] == old(output[i])
      ensures |chunk| == 1 ==> tags[chunk[0] % tags.Length] == chunk[0] && values[chunk[0] % tags.Length] == rows[0]
    {
      Install(output, ids, positions, chunk, rows);
    }

    /** The missed positions whose id lies in the chunk missing[start..stop]. */
    method SelectRange(ids: seq<int>, missed: seq<nat>, missing: seq<int>, start: nat, stop: nat)
      returns (positions: seq<nat>)
      requires start <= stop <= |missing| && Ascending(missing)
      requires forall k :: 0 <= k < |missed| ==> missed[k] < |ids| && ids[missed[k]] in missing
      ensures forall k :: 0 <= k < |positions| ==> positions[k] in missed && positions[k] < |ids|
      ensures forall k :: 0 <= k < |positions| ==> ids[positions[k]] in missing[start..stop]
      ensures forall i :: i in missed && start <= IndexOf(missing, ids[i]) < stop ==> i in positions
    {
      hide *;
      positions := [];
      ghost var chunk := missing[start..stop];
      for k := 0 to |missed|
        invariant forall j :: 0 <= j < |positions| ==> positions[j] in missed && positions[j] < |ids|
        invariant forall j :: 0 <= j < |positions| ==> ids[positions[j]] in chunk
        invariant forall j :: 0 <= j < k && start <= IndexOf(missing, ids[missed[j]]) < stop ==> missed[j] in positions
      {
        var i := missed[k];
        var inverse := IndexOf(missing, ids[i]);
        if start <= inverse < stop {
          assert chunk[inverse - start] == ids[i];
          positions := positions + [i];
        }
      }
    }

    /** The chunk loop of `read` on CUDA. */
    method TransferMisses(
      weight: Table<Row>, ids: seq<int>, output: array<Row>, found: seq<nat>, missed: seq<nat>, missing: seq<int>,
      during: seq<Disturbance<Row>>) returns (ok: bool)
      requires Valid() && ticket.None? && 0 < tags.Length
      requires table == weight && Current() && weight.Valid()
      requires output.Length == |ids| && output != values && output as object != tags as object
      requires missing != [] && Ascending(missing) && InRange(missing, |weight.rows|)
      requires forall k :: 0 <= k < |missed| ==> missed[k] < |ids| && ids[missed[k]] in missing
      requires forall k :: 0 <= k < |found| ==>
                 && found[k] < |ids| && found[k] !in missed
                 && tags[ids[found[k]] % tags.Length] == ids[found[k]] != -1
      modifies this, values, tags, output, weight
      ensures values == old(values) && tags == old(tags) && table == old(table) && resident == old(resident) && bound == old(bound)
      ensures signature == old(signature) && hits == old(hits) && misses == old(misses)
      ensures weight.Valid() && weight.version >= old(weight.version) && old(weight.history) <= weight.history
      ensures !ok ==> exists c :: 0 <= c < |during| && FirstApplying(old(weight.Store()), during, c)
                                  && weight.Store() == Disturbed(old(weight.Store()), during[c])
      ensures ok ==>
                && Valid() && ticket.None? && Current()
                && (old(EntriesMatch(weight.rows)) ==> EntriesMatch(weight.rows))
                && transferred == old(transferred) + |missing|
                && SameTable(weight, old(weight.rows), old(weight.version), old(weight.history))
                && (forall i :: 0 <= i < |ids| && i in missed ==>
                      0 <= ids[i] < |weight.rows| && output[i] == weight.rows[ids[i]])
                && (forall i :: 0 <= i < |ids| && i in found ==> output[i] == old(values[ids[i] % tags.Length]))
    {
      hide Ascending, IndexOf;
      var start, c := 0, 0;
      ghost var rows := weight.rows;
      while start < |missing|
        invariant 0 <= start && (start == 0 <==> c == 0)
        invariant values == old(values) && tags == old(tags) && table == weight && resident == old(resident) && bound == old(bound)
        invariant signature == old(signature) && hits == old(hits) && misses == old(misses)
        invariant transferred == old(transferred) + if start <= |missing| then start else |missing|
        invariant Valid() && ticket.None? && Current()
        invariant old(EntriesMatch(weight.rows)) ==> EntriesMatch(rows)
        invariant weight.rows == rows && SameTable(weight, old(weight.rows), old(weight.version), old(weight.history))
        invariant start == 0 ==> tags[..] == old(tags[..]) && values[..] == old(values[..])
        invariant forall j :: 0 <= j < c && j < |during| ==> !Applies(old(weight.Store()), during[j])
        invariant forall i :: 0 <= i < |ids| && i in missed && IndexOf(missing, ids[i]) < start ==>
                    0 <= ids[i] < |rows| && output[i] == rows[ids[i]]
        invariant 0 < start ==> forall i :: 0 <= i < |ids| && i in found ==> output[i] == old(values[ids[i] % tags.Length])
      {
        var width := ChunkCapacity(weight);
        var stop := if start + width < |missing| then start + width else |missing|;
        var positions := SelectRange(ids, missed, missing, start, stop);
        var d := if c < |during| then during[c] else Quiet;
        ghost var before := output[..];
        var installed := TransferChunk(weight, ids, output, positions, missing[start..stop], found, start == 0, d);
        if !installed {
          return false;
        }
        forall i | 0 <= i < |ids| && i in missed && IndexOf(missing, ids[i]) < stop
          ensures 0 <= ids[i] < |rows| && output[i] == rows[ids[i]]
        {
          if i !in positions {
            assert output[i] == before[i];
          }
        }
        start := start + width;
        c := c + 1;
      }
      return true;
    }

    /** The missing ids, each once and ascending, are rows of the table. */
    static lemma MissingRows(count: nat, ids: seq<int>, missed: seq<nat>)
      requires InRange(ids, count) && missed != []
      requires forall k :: 0 <= k < |missed| ==> missed[k] < |ids|
      ensures var missing := SortedUnique(Select(ids, missed));
              && missing != [] && Ascending(missing) && InRange(missing, count)
              && forall k :: 0 <= k < |missed| ==> ids[missed[k]] in missing
    {
      var wanted := Select(ids, missed);
      var missing := SortedUnique(wanted);
      forall k | 0 <= k < |missed| ensures ids[missed[k]] in missing {
        assert wanted[k] in wanted;
      }
      forall k | 0 <= k < |missing| ensures 0 <= missing[k] < count {
        assert missing[k] in wanted;
        var j :| 0 <= j < |wanted| && wanted[j] == missing[k];
      }
      assert wanted[0] in missing;
    }

    static lemma OneMissing(id: int)
      ensures SortedUnique([id]) == [id]
    {
      var unique := SortedUnique([id]);
      assert forall k :: 0 <= k < |unique| ==> unique[k] in unique;
      assert id in unique;
    }

    /** The row a lookup gives for an id: the cached one if the id's slot has its tag, else the table's. */
    ghost function Seen(weight: Table<Row>, id: int): Row
      reads this, values, tags, weight
      requires values.Length == tags.Length && 0 < tags.Length && 0 <= id < |weight.rows|
    {
      if tags[id % tags.Length] == id then values[id % tags.Length] else weight.rows[id]
    }

    /** The CPU path: copy the hits, look the missing rows up at once, install them. */
    method LookupMisses(
      weight: Table<Row>, ids: seq<int>, output: array<Row>, found: seq<nat>, missed: seq<nat>, missing: seq<int>)
      requires Valid() && ticket.None? && 0 < tags.Length
      requires table == weight && Current() && weight.Valid()
      requires output.Length == |ids| && output != values && output as object != tags as object
      requires InRange(ids, |weight.rows|) && InRange(missing, |weight.rows|)
      requires forall k :: 0 <= k < |missed| ==> missed[k] < |ids| && ids[missed[k]] in missing
      requires forall k :: 0 <= k < |found| ==>
                 && found[k] < |ids| && found[k] !in missed
                 && tags[ids[found[k]] % tags.Length] == ids[found[k]]
      modifies this`transferred, values, tags, output
      ensures Valid() && (old(EntriesMatch(weight.rows)) ==> EntriesMatch(weight.rows))
      ensures forall i :: 0 <= i < |ids| && i in missed ==> output[i] == weight.rows[ids[i]]
      ensures forall i :: 0 <= i < |ids| && i in found ==> output[i] == old(values[ids[i] % tags.Length])
      ensures |missing| == 1 ==>
                tags[missing[0] % tags.Length] == missing[0] && values[missing[0] % tags.Length] == weight.rows[missing[0]]
    {
      CopyHits(output, ids, found);
      var rows := Lookup(weight.rows, missing);
      transferred := transferred + |missing|;
      InstallRows(weight, ids, output, missed, missing, rows);
    }

    /** Fetch the missing rows: in one step on CPU, in ticketed chunks on CUDA. */
    method FetchMisses(
      weight: Table<Row>, ids: seq<int>, output: array<Row>, found: seq<nat>, missed: seq<nat>,
      during: seq<Disturbance<Row>>) returns (ok: bool)
      requires Valid() && ticket.None? && 0 < tags.Length
      requires table == weight && Current() && weight.Valid()
      requires output.Length == |ids| && output != values && output as object != tags as object
      requires InRange(ids, |weight.rows|) && missed != []
      requires forall k :: 0 <= k < |missed| ==> missed[k] < |ids|
      requires forall k :: 0 <= k < |found| ==>
                 && found[k] < |ids| && found[k] !in missed
                 && tags[ids[found[k]] % tags.Length] == ids[found[k]]
      modifies this, values, tags, output, weight
      ensures values == old(values) && tags == old(tags) && table == old(table) && resident == old(resident) && bound == old(bound)
      ensures signature == old(signature) && hits == old(hits) && misses == old(misses)
      ensures weight.Valid() && weight.version >= old(weight.version) && old(weight.history) <= weight.history
      ensures !ok ==> cuda && exists c :: 0 <= c < |during| && FirstApplying(old(weight.Store()), during, c)
                                  && weight.Store() == Disturbed(old(weight.Store()), during[c])
      ensures ok ==>
                && Valid() && ticket.None? && Current()
                && (old(EntriesMatch(weight.rows)) ==> EntriesMatch(weight.rows))
                && SameTable(weight, old(weight.rows), old(weight.version), old(weight.history))
                && (forall i :: 0 <= i < |ids| && i in missed ==> output[i] == weight.rows[ids[i]])
                && (forall i :: 0 <= i < |ids| && i in found ==> output[i] == old(values[ids[i] % tags.Length]))
      ensures !cuda && |ids| == 1 && missed == [0] ==>
                tags[ids[0] % tags.Length] == ids[0] && values[ids[0] % tags.Length] == weight.rows[ids[0]]
    {
      var missing := SortedUnique(Select(ids, missed));
      MissingRows(|weight.rows|, ids, missed);
      if missed == [0] {
        assert Select(ids, missed) == [ids[0]];
        OneMissing(ids[0]);
      }
      if cuda {
        ok := TransferMisses(weight, ids, output, found, missed, missing, during);
      } else {
        LookupMisses(weight, ids, output, found, missed, missing);
        ok := true;
      }
    }

    /** Answer a nonempty, in-range request from a cache that is bound to the table. */
    method Serve(weight: Table<Row>, ids: seq<int>, during: seq<Disturbance<Row>>) returns (served: Option<seq<Row>>)
      requires Valid() && ticket.None? && 0 < tags.Length
      requires table == weight && Current() && weight.Valid()
      requires InRange(ids, |weight.rows|)
      modifies this, values, tags, weight
      ensures values == old(values) && tags == old(tags) && table == old(table) && resident == old(resident) && bound == old(bound)
      ensures signature == old(signature)
      ensures hits == old(hits) + Answered(old(tags[..]), ids)
      ensures misses == old(misses) + |ids| - Answered(old(tags[..]), ids)
      ensures weight.Valid() && weight.version >= old(weight.version) && old(weight.history) <= weight.history
      ensures served.None? ==> cuda && exists c :: 0 <= c < |during| && FirstApplying(old(weight.Store()), during, c)
                                          && weight.Store() == Disturbed(old(weight.Store()), during[c])
      ensures served.Some? ==>
                && Valid() && ticket.None? && Current()
                && (old(EntriesMatch(weight.rows)) ==> EntriesMatch(weight.rows))
                && SameTable(weight, old(weight.rows), old(weight.version), old(weight.history))
                && |served.value| == |ids| && forall i :: 0 <= i < |ids| ==> served.value[i] == old(Seen(weight, ids[i]))
      ensures served.Some? && !cuda && |ids| == 1 ==>
                tags[ids[0] % tags.Length] == ids[0] && values[ids[0] % tags.Length] == served.value[0]
    {
      if ids == [] {
        return Some([]);
      }
      var output := new Row[|ids|];
      var found, missed := Classify(ids);
      hits, misses := hits + |found|, misses + |missed|;
      var filled := Fill(weight, ids, output, found, missed, during);
      if !filled {
        return None;
      }
      return Some(output[..]);
    }

    /** Fill the output from the cache and the table. */
    method Fill(
      weight: Table<Row>, ids: seq<int>, output: array<Row>, found: seq<nat>, missed: seq<nat>,
      during: seq<Disturbance<Row>>) returns (ok: bool)
      requires Valid() && ticket.None? && 0 < tags.Length
      requires table == weight && Current() && weight.Valid()
      requires InRange(ids, |weight.rows|)
      requires output.Length == |ids| && output != values && output as object != tags as object
      requires forall k :: 0 <= k < |found| ==> found[k] < |ids|
      requires forall k :: 0 <= k < |missed| ==> missed[k] < |ids|
      requires forall i: nat :: i < |ids| ==> (i in found <==> tags[ids[i] % tags.Length] == ids[i])
      requires forall i: nat :: i < |ids| ==> (i in missed <==> tags[ids[i] % tags.Length] != ids[i])
      requires |found| + |missed| == |ids|
      modifies this, values, tags, output, weight
      ensures values == old(values) && tags == old(tags) && table == old(table) && resident == old(resident) && bound == old(bound)
      ensures signature == old(signature) && hits == old(hits) && misses == old(misses)
      ensures weight.Valid() && weight.version >= old(weight.version) && old(weight.history) <= weight.history
      ensures !ok ==> cuda && exists c :: 0 <= c < |during| && FirstApplying(old(weight.Store()), during, c)
                                  && weight.Store() == Disturbed(old(weight.Store()), during[c])
      ensures ok ==>
                && Valid() && ticket.None? && Current()
                && (old(EntriesMatch(weight.rows)) ==> EntriesMatch(weight.rows))
                && SameTable(weight, old(weight.rows), old(weight.version), old(weight.history))
                && forall i :: 0 <= i < |ids| ==> output[i] == old(Seen(weight, ids[i]))
      ensures ok && !cuda && |ids| == 1 ==>
                tags[ids[0] % tags.Length] == ids[0] && values[ids[0] % tags.Length] == output[0]
    {
      if missed == [] {
        assert forall i: nat :: i < |ids| ==> i !in missed;
        CopyHits(output, ids, found);
        return true;
      }
      ok := FetchMisses(weight, ids, output, found, missed, during);
      if ok && |ids| == 1 {
        assert |missed| == 1 && missed[0] == 0;
      }
    }

    /** One lookup through the cache. */
    method Read(weight: Table<Row>, ids: seq<int>, during: seq<Disturbance<Row>>)
      returns (result: Result<seq<Row>, ReadError>)
      requires Valid() && Coherent() && ticket.None? && weight.Valid()
      modifies this, values, tags, weight
      ensures Valid() && Coherent() && ticket.None? && weight.Valid()
      ensures fresh(values) || values == old(values)
      ensures fresh(tags) || tags == old(tags)
      ensures weight.version >= old(weight.version) && old(weight.history) <= weight.history
      ensures result.Ok? ==>
                InRange(ids, |old(weight.rows)|) && |result.value| == |ids| && hits + misses == old(hits + misses) + |ids|
      ensures result.Ok? && !old(Aliased(weight)) ==> result.value == Lookup(old(weight.rows), ids)
      ensures result.Ok? && old(Aliased(weight)) ==> forall i :: 0 <= i < |ids| ==> result.value[i] == old(Seen(weight, ids[i]))
      ensures result.Ok? && !cuda && |ids| == 1 ==>
                && table == weight && Current() && Aliased(weight) == old(Aliased(weight))
                && tags[ids[0] % tags.Length] == ids[0] && values[ids[0] % tags.Length] == result.value[0]
      ensures result != Err(ChangedDuringLookup) ==>
                SameTable(weight, old(weight.rows), old(weight.version), old(weight.history))
      ensures result == Err(BudgetTooSmall) ==> Capacity(weight) < 1
      ensures result == Err(OutOfRange) ==> !InRange(ids, |weight.rows|)
      ensures result == Err(ChangedDuringLookup) ==>
                cuda && exists c :: 0 <= c < |during| && FirstApplying(old(weight.Store()), during, c)
                           && weight.Store() == Disturbed(old(weight.Store()), during[c])
    {
      var ok := Validate(weight);
      if !ok {
        return Err(BudgetTooSmall);
      }
      if !InRange(ids, |weight.rows|) {
        return Err(OutOfRange);
      }
      result := Answer(weight, ids, during);
    }

    /** Serve the request; what a lookup that noticed a change has left behind is forgotten. */
    method Answer(weight: Table<Row>, ids: seq<int>, during: seq<Disturbance<Row>>)
      returns (result: Result<seq<Row>, ReadError>)
      requires Valid() && Coherent() && ticket.None? && weight.Valid()
      requires table == weight && Current() && InRange(ids, |weight.rows|)
      modifies this, values, tags, weight
      ensures Valid() && Coherent() && ticket.None? && weight.Valid()
      ensures values == old(values) && tags == old(tags)
      ensures weight.version >= old(weight.version) && old(weight.history) <= weight.history
      ensures result.Ok? || result == Err(ChangedDuringLookup)
      ensures result.Ok? ==> |result.value| == |ids| && hits + misses == old(hits + misses) + |ids|
      ensures result.Ok? && !old(Aliased(weight)) ==> result.value == Lookup(old(weight.rows), ids)
      ensures result.Ok? && old(Aliased(weight)) ==> forall i :: 0 <= i < |ids| ==> result.value[i] == old(Seen(weight, ids[i]))
      ensures result.Ok? && !cuda && |ids| == 1 ==>
                && table == weight && Current() && Aliased(weight) == old(Aliased(weight))
                && tags[ids[0] % tags.Length] == ids[0] && values[ids[0] % tags.Length] == result.value[0]
      ensures result.Ok? ==> SameTable(weight, old(weight.rows), old(weight.version), old(weight.history))
      ensures result.Err? ==>
                cuda && exists c :: 0 <= c < |during| && FirstApplying(old(weight.Store()), during, c)
                           && weight.Store() == Disturbed(old(weight.Store()), during[c])
    {
      MatchingIsSeen(weight);
      var served := Serve(weight, ids, during);
      if served.None? {
        Poison();
        return Err(ChangedDuringLookup);
      }
      return Ok(served.value);
    }

    /** A cache whose entries are the table's rows shows the table. */
    lemma MatchingIsSeen(weight: Table<Row>)
      requires Valid() && Coherent() && table == weight && Current() && 0 < tags.Length
      ensures !Aliased(weight) ==> EntriesMatch(weight.rows) && forall i :: 0 <= i < |weight.rows| ==> Seen(weight, i) == weight.rows[i]
    {
    }
  }

  ghost predicate SameTable<Row>(weight: Table<Row>, rows: seq<Row>, version: nat, history: seq<nat>)
    reads weight
  {
    weight.Valid() && weight.rows == rows && weight.version == version && weight.history == history
  }

  /** A disturbance that changes anything: an in-place update keeps the table's shape, and new storage has another
      address than the one it replaces. */
  predicate Applies<Row>(was: Stored<Row>, d: Disturbance<Row>) {
    match d
    case Quiet => false
    case Clears => true
    case Updates(rows) => |rows| == |was.rows|
    case Replaces(_, address) => address != was.address
  }

  /** Disturbance c is the first that changes anything. */
  predicate FirstApplying<Row>(was: Stored<Row>, during: seq<Disturbance<Row>>, c: nat)
    requires c < |during|
  {
    Applies(was, during[c]) && forall j :: 0 <= j < c ==> !Applies(was, during[j])
  }

  function Disturbed<Row>(was: Stored<Row>, d: Disturbance<Row>): Stored<Row> {
    match d
    case Quiet => was
    case Clears => was
    case Updates(rows) => if |rows| == |was.rows| then was.(rows := rows) else was
    case Replaces(rows, address) => if address != was.address then Stored(rows, address) else was
  }

  // ----- whole runs

  datatype Op<Row> =
    | ReadOp(table: nat, ids: seq<int>, during: seq<Disturbance<Row>>)
    | UpdateOp(table: nat, rows: seq<Row>)
    | ReplaceOp(table: nat, rows: seq<Row>, address: nat)
    | ClearOp

  predicate WellAddressed<Row>(op: Op<Row>, count: nat) {
    op.ClearOp? || op.table < count
  }

  type Outcome<Row> = Option<Result<seq<Row>, ReadError>>

  function FirstChange<Row>(was: Stored<Row>, during: seq<Disturbance<Row>>): Stored<Row> {
    if during == [] then was
    else if Applies(was, during[0]) then Disturbed(was, during[0])
    else FirstChange(was, during[1..])
  }

  lemma {:induction false} FirstChangeIsFirstApplying<Row>(was: Stored<Row>, during: seq<Disturbance<Row>>, c: nat)
    requires c < |during| && FirstApplying(was, during, c)
    ensures FirstChange(was, during) == Disturbed(was, during[c])
  {
    if c > 0 {
      FirstChangeIsFirstApplying(was, during[1..], c - 1);
    }
  }

  /** The tables' contents after one operation: the cache itself never writes a table. */
  function After<Row>(contents: seq<Stored<Row>>, op: Op<Row>, outcome: Outcome<Row>): (r: seq<Stored<Row>>)
    requires WellAddressed(op, |contents|)
    ensures |r| == |contents|
  {
    match op
    case ReadOp(t, _, during) =>
      if outcome == Some(Err(ChangedDuringLookup)) then contents[t := FirstChange(contents[t], during)] else contents
    case UpdateOp(t, rows) => contents[t := Disturbed(contents[t], Updates(rows))]
    case ReplaceOp(t, rows, address) => contents[t := Disturbed(contents[t], Replaces(rows, address))]
    case ClearOp => contents
  }

  /** The tables' contents just before operation k. */
  function ContentsAt<Row>(initial: seq<Stored<Row>>, ops: seq<Op<Row>>, outcomes: seq<Outcome<Row>>, k: nat)
    : (r: seq<Stored<Row>>)
    requires k <= |ops| && k <= |outcomes|
    requires forall j :: 0 <= j < |ops| ==> WellAddressed(ops[j], |initial|)
    ensures |r| == |initial|
  {
    if k == 0 then initial else After(ContentsAt(initial, ops, outcomes, k - 1), ops[k - 1], outcomes[k - 1])
  }

  lemma {:induction false} ContentsAtPrefix<Row>(
    initial: seq<Stored<Row>>, ops: seq<Op<Row>>, outcomes: seq<Outcome<Row>>, longer: seq<Outcome<Row>>, k: nat)
    requires k <= |ops| && k <= |outcomes| && outcomes <= longer
    requires forall j :: 0 <= j < |ops| ==> WellAddressed(ops[j], |initial|)
    ensures ContentsAt(initial, ops, outcomes, k) == ContentsAt(initial, ops, longer, k)
  {
    if k > 0 {
      ContentsAtPrefix(initial, ops, outcomes, longer, k - 1);
    }
  }

  /** A successful read of operation k is a plain lookup in the table as it was then. */
  ghost predicate Transparent<Row>(initial: seq<Stored<Row>>, ops: seq<Op<Row>>, outcomes: seq<Outcome<Row>>, k: nat)
    requires k < |ops| && k < |outcomes|
    requires forall j :: 0 <= j < |ops| ==> WellAddressed(ops[j], |initial|)
  {
    ops[k].ReadOp? && outcomes[k].Some? && outcomes[k].value.Ok? ==>
      var rows := ContentsAt(initial, ops, outcomes, k)[ops[k].table].rows;
      InRange(ops[k].ids, |rows|) && outcomes[k].value.value == Lookup(rows, ops[k].ids)
  }

  lemma TransparentOneFurther<Row>(
    initial: seq<Stored<Row>>, ops: seq<Op<Row>>, outcomes: seq<Outcome<Row>>, outcome: Outcome<Row>)
    requires |outcomes| < |ops|
    requires forall j :: 0 <= j < |ops| ==> WellAddressed(ops[j], |initial|)
    requires forall j :: 0 <= j < |outcomes| ==> Transparent(initial, ops, outcomes, j)
    requires var op, contents := ops[|outcomes|], ContentsAt(initial, ops, outcomes, |outcomes|);
             op.ReadOp? && outcome.Some? && outcome.value.Ok? ==>
               InRange(op.ids, |contents[op.table].rows|) && outcome.value.value == Lookup(contents[op.table].rows, op.ids)
    ensures var longer := outcomes + [outcome];
            && ContentsAt(initial, ops, longer, |longer|)
               == After(ContentsAt(initial, ops, outcomes, |outcomes|), ops[|outcomes|], outcome)
            && forall j :: 0 <= j < |longer| ==> Transparent(initial, ops, longer, j)
  {
    var longer := outcomes + [outcome];
    ContentsAtPrefix(initial, ops, outcomes, longer, |outcomes|);
    forall j | 0 <= j < |longer| ensures Transparent(initial, ops, longer, j) {
      if j < |outcomes| {
        assert Transparent(initial, ops, outcomes, j);
        ContentsAtPrefix(initial, ops, outcomes, longer, j);
      }
    }
  }

  ghost function Contents<Row>(tables: seq<Table<Row>>): (r: seq<Stored<Row>>)
    reads tables
    ensures |r| == |tables|
    ensures forall t :: 0 <= t < |tables| ==> r[t] == tables[t].Store()
  {
    seq(|tables|, t requires 0 <= t < |tables| reads tables => tables[t].Store())
  }

  /** Every table's storage has been at ever new addresses. */
  ghost predicate NeverReturned<Row>(tables: seq<Table<Row>>)
    reads tables
  {
    forall t :: 0 <= t < |tables| ==> Distinct(tables[t].history)
  }

  method Perform<Row(0)>(cache: Cache<Row>, tables: seq<Table<Row>>, op: Op<Row>) returns (outcome: Outcome<Row>)
    requires cache.Valid() && cache.Coherent() && cache.ticket.None?
    requires WellAddressed(op, |tables|) && Distinct(tables) && forall t :: 0 <= t < |tables| ==> tables[t].Valid()
    modifies cache, cache.values, cache.tags, tables
    ensures cache.Valid() && cache.Coherent() && cache.ticket.None?
    ensures forall t :: 0 <= t < |tables| ==> tables[t].Valid() && old(tables[t].history) <= tables[t].history
    ensures fresh(cache.values) || cache.values == old(cache.values)
    ensures fresh(cache.tags) || cache.tags == old(cache.tags)
    ensures Contents(tables) == After(old(Contents(tables)), op, outcome)
    ensures old(NeverReturned(tables)) && op.ReadOp? && outcome.Some? && outcome.value.Ok? ==>
              var rows := old(Contents(tables))[op.table].rows;
              InRange(op.ids, |rows|) && outcome.value.value == Lookup(rows, op.ids)
  {
    outcome := None;
    match op
    case ReadOp(t, ids, during) =>
      var result := ReadThrough(cache, tables, t, ids, during);
      outcome := Some(result);
    case UpdateOp(t, rows) => Change(cache, tables, t, Updates(rows));
    case ReplaceOp(t, rows, address) => Change(cache, tables, t, Replaces(rows, address));
    case ClearOp => cache.Clear();
  }

  /** Change a table behind the cache's back. */
  method Change<Row(0)>(cache: Cache<Row>, tables: seq<Table<Row>>, t: nat, d: Disturbance<Row>)
    requires cache.Valid() && cache.Coherent() && cache.ticket.None? && d != Clears
    requires t < |tables| && Distinct(tables) && forall t :: 0 <= t < |tables| ==> tables[t].Valid()
    modifies tables[t]
    ensures cache.Valid() && cache.Coherent() && cache.ticket.None?
    ensures tables[t].Valid() && old(tables[t].history) <= tables[t].history
    ensures Contents(tables) == old(Contents(tables))[t := Disturbed(old(Contents(tables))[t], d)]
  {
    match d {
      case Quiet =>
      case Updates(rows) =>
        if |rows| == |tables[t].rows| {
          tables[t].Update(rows);
        }
      case Replaces(rows, address) =>
        if address != tables[t].address {
          tables[t].Replace(rows, address);
        }
    }
    assert forall u :: 0 <= u < |tables| && u != t ==> tables[u] != tables[t];
  }

  method ReadThrough<Row(0)>(cache: Cache<Row>, tables: seq<Table<Row>>, t: nat, ids: seq<int>, during: seq<Disturbance<Row>>)
    returns (result: Result<seq<Row>, ReadError>)
    requires cache.Valid() && cache.Coherent() && cache.ticket.None?
    requires t < |tables| && Distinct(tables) && forall t :: 0 <= t < |tables| ==> tables[t].Valid()
    modifies cache, cache.values, cache.tags, tables[t]
    ensures cache.Valid() && cache.Coherent() && cache.ticket.None?
    ensures tables[t].Valid() && old(tables[t].history) <= tables[t].history
    ensures fresh(cache.values) || cache.values == old(cache.values)
    ensures fresh(cache.tags) || cache.tags == old(cache.tags)
    ensures Contents(tables) ==
              if result == Err(ChangedDuringLookup) then old(Contents(tables))[t := FirstChange(old(Contents(tables))[t], during)]
              else old(Contents(tables))
    ensures old(NeverReturned(tables)) && result.Ok? ==>
              var rows := old(Contents(tables))[t].rows; InRange(ids, |rows|) && result.value == Lookup(rows, ids)
  {
    hide Cache.Valid, Cache.Coherent, Cache.Current, Lookup, InRange;
    NotAliased(cache, tables, t);
    assert forall u :: 0 <= u < |tables| && u != t ==> tables[u] != tables[t];
    result := cache.Read(tables[t], ids, during);
    if result == Err(ChangedDuringLookup) {
      ghost var c :| 0 <= c < |during| && FirstApplying(old(tables[t].Store()), during, c)
                     && tables[t].Store() == Disturbed(old(tables[t].Store()), during[c]);
      FirstChangeIsFirstApplying(old(tables[t].Store()), during, c);
    }
  }

  lemma NotAliased<Row(0)>(cache: Cache<Row>, tables: seq<Table<Row>>, t: nat)
    requires t < |tables| && tables[t].Valid() && cache.Valid() && cache.Coherent()
    ensures NeverReturned(tables) ==> !cache.Aliased(tables[t])
  {
  }

  /** Any sequence of reads, updates, replacements and clears, with any interference inside reads. Every successful
      read is a plain lookup, unless some table's storage has returned to an address it had before. */
  method Replay<Row(0)>(cache: Cache<Row>, tables: seq<Table<Row>>, ops: seq<Op<Row>>)
    returns (outcomes: seq<Outcome<Row>>)
    requires cache.Valid() && cache.Coherent() && cache.ticket.None? && Distinct(tables)
    requires forall t :: 0 <= t < |tables| ==> tables[t].Valid()
    requires forall j :: 0 <= j < |ops| ==> WellAddressed(ops[j], |tables|)
    modifies cache, cache.values, cache.tags, tables
    ensures cache.Valid() && cache.Coherent()
    ensures |outcomes| == |ops|
    ensures Contents(tables) == ContentsAt(old(Contents(tables)), ops, outcomes, |ops|)
    ensures forall t :: 0 <= t < |tables| ==> old(tables[t].history) <= tables[t].history
    ensures NeverReturned(tables) ==> forall k :: 0 <= k < |ops| ==> Transparent(old(Contents(tables)), ops, outcomes, k)
  {
    hide Lookup, InRange, Transparent, After;
    outcomes := [];
    ghost var initial := Contents(tables);
    for k := 0 to |ops|
      invariant cache.Valid() && cache.Coherent() && cache.ticket.None?
      invariant forall t :: 0 <= t < |tables| ==> tables[t].Valid() && old(tables[t].history) <= tables[t].history
      invariant fresh(cache.values) || cache.values == old(cache.values)
      invariant fresh(cache.tags) || cache.tags == old(cache.tags)
      invariant |outcomes| == k
      invariant Contents(tables) == ContentsAt(initial, ops, outcomes, k)
      invariant NeverReturned(tables) ==> forall j :: 0 <= j < k ==> Transparent(initial, ops, outcomes, j)
    {
      var outcome := Perform(cache, tables, ops[k]);
      OneFurther(initial, ops, outcomes, outcome);
      if NeverReturned(tables) {
        TransparentOneFurther(initial, ops, outcomes, outcome);
      }
      outcomes := outcomes + [outcome];
    }
  }

  lemma OneFurther<Row>(
    initial: seq<Stored<Row>>, ops: seq<Op<Row>>, outcomes: seq<Outcome<Row>>, outcome: Outcome<Row>)
    requires |outcomes| < |ops|
    requires forall j :: 0 <= j < |ops| ==> WellAddressed(ops[j], |initial|)
    ensures var longer := outcomes + [outcome];
            ContentsAt(initial, ops, longer, |longer|)
              == After(ContentsAt(initial, ops, outcomes, |outcomes|), ops[|outcomes|], outcome)
  {
    ContentsAtPrefix(initial, ops, outcomes, outcomes + [outcome], |outcomes|);
  }

  lemma Outcomes<T>(result: Result<T, ReadError>)
    ensures result.Ok? || result == Err(BudgetTooSmall) || result == Err(OutOfRange) || result == Err(ChangedDuringLookup)
  {
    match result
    case Ok(_) =>
    case Err(BudgetTooSmall) =>
    case Err(OutOfRange) =>
    case Err(ChangedDuringLookup) =>
  }

  /** A lookup of one row on CPU always succeeds and leaves the row cached. */
  method ReadRow<Row(0)>(cache: Cache<Row>, weight: Table<Row>, id: nat) returns (row: Row)
    requires cache.Valid() && cache.Coherent() && cache.ticket.None? && !cache.cuda
    requires weight.Valid() && 1 <= cache.Capacity(weight) && id < |weight.rows|
    modifies cache, cache.values, cache.tags, weight
    ensures cache.Valid() && cache.Coherent() && cache.ticket.None?
    ensures fresh(cache.values) || cache.values == old(cache.values)
    ensures fresh(cache.tags) || cache.tags == old(cache.tags)
    ensures SameTable(weight, old(weight.rows), old(weight.version), old(weight.history))
    ensures cache.table == weight && cache.Current() && cache.Aliased(weight) == old(cache.Aliased(weight))
    ensures cache.tags[id % cache.tags.Length] == id && cache.Seen(weight, id) == row
    ensures row == if old(cache.Aliased(weight)) then old(cache.Seen(weight, id)) else weight.rows[id]
  {
    var result := cache.Read(weight, [id], []);
    Outcomes(result);
    row := result.value[0];
  }

  /** It does matter: read row 0, replace the storage twice so that it returns to its first address, and the cache
      still answers with the row it saw first. */
  method StaleRead() returns (seen: int, table: Table<int>)
    ensures seen == 1 && table.rows == [3]
  {
    table := new Table([1], 1, 0);
    var cache := new Cache(9, false);
    seen := ReadRow(cache, table, 0);
    table.Replace([2], 7);
    table.Replace([3], 0);
    assert cache.Aliased(table);
    seen := ReadRow(cache, table, 0);
  }
}
