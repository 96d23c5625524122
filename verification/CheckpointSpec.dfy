/** Saving a checkpoint on every rank of a job (dsv41_train/sft_checkpoint.py, `save_checkpoint` and `_collect`).

    Ranks work on their own between collectives; a collective gathers every rank's value once all have called it.
    A rank that raised calls none any more, so the others would wait for it for ever. The directory is shared. */
module CheckpointSpec {
  import opened Wrappers

  datatype Digest = Digest(of: seq<nat>)

  /** What a rank saves: its step, its identity if that is well formed, its layout, and its serialized payload. */
  datatype Participant = Participant(step: int, identity: Option<nat>, schema: nat, content: seq<nat>)

  datatype Record = Record(file: nat, digest: Digest, bytes: nat, schema: nat)

  datatype Manifest = Manifest(world: nat, step: int, identity: Option<nat>, records: seq<Record>)

  /** `files` holds rank-<r>.pt under r. */
  datatype Disk = Disk(dir: bool, files: map<nat, seq<nat>>, manifest: Option<Manifest>)

  predicate ValidDisk(disk: Disk) {
    !disk.dir ==> disk.files == map[] && disk.manifest == None
  }

  datatype Phase = Preparing | Creating | Saving | Publishing

  datatype Outcome = Returned | Raised(at: Phase)

  /** The value a rank gives to a collective. */
  datatype Gathered = Gathered(error: Option<string>, record: Option<Record>, identity: Option<nat>, step: int)

  datatype Rank = Rank(
    phase: Phase, arrived: bool, error: Option<string>, record: Option<Record>, results: seq<Gathered>,
    ended: Option<Outcome>, calls: seq<Phase>)

  datatype State = State(ranks: seq<Rank>, disk: Disk)

  /** How a phase went for a rank: whether its effects failed, whether the failure came after the file was
      replaced, the text of what made mkdir fail other than an existing directory (a bare `MemoryError` has none),
      and the file sizes rank 0 saw on the shared filesystem. */
  datatype Choice = Choice(ok: bool, replaced: bool, message: string, seen: seq<nat>)

  datatype Event = Works(rank: nat, choice: Choice) | Meets

  /** Every error but that of mkdir is prefixed with the rank. */
  const RANK_ERROR := "rank: "

  const DIRECTORY_EXISTS := "File exists"

  const FRESH := Rank(Preparing, false, None, None, [], None, [])

  function Started(job: seq<Participant>, disk: Disk): State {
    State(seq(|job|, _ => FRESH), disk)
  }

  // ----- a rank on its own

  function RecordOf(p: Participant, me: nat): Record {
    Record(me, Digest(p.content), |p.content|, p.schema)
  }

  function Prepare(p: Participant, rank: Rank, choice: Choice): Rank {
    if choice.ok && p.step >= 0 && p.identity.Some? then rank else rank.(error := Some(RANK_ERROR))
  }

  /** Only rank 0 makes the directory, which must be new. */
  function Create(me: nat, rank: Rank, disk: Disk, choice: Choice): (Rank, Disk) {
    if me != 0 then (rank, disk)
    else if !choice.ok then (rank.(error := Some(choice.message)), disk)
    else if disk.dir then (rank.(error := Some(DIRECTORY_EXISTS)), disk)
    else (rank, disk.(dir := true))
  }

  /** The file appears whole or not at all, though a later failure may still be reported. */
  function Save(p: Participant, me: nat, rank: Rank, disk: Disk, choice: Choice): (Rank, Disk) {
    var written := disk.(dir := true, files := disk.files[me := p.content]);
    if choice.ok then (rank.(record := if rank.error.None? then Some(RecordOf(p, me)) else None), written)
    else (rank.(error := Some(RANK_ERROR), record := None), if choice.replaced then written else disk)
  }

  predicate Agreed(results: seq<Gathered>, p: Participant) {
    forall k :: 0 <= k < |results| ==> results[k].identity == p.identity && results[k].step == p.step
  }

  /** Every rank has a record, and rank 0 sees its file at the recorded size. */
  predicate AllVisible(results: seq<Gathered>, seen: seq<nat>) {
    |seen| == |results| && forall k :: 0 <= k < |results| ==> results[k].record.Some? && seen[k] == results[k].record.value.bytes
  }

  function RecordsOf(results: seq<Gathered>): (records: seq<Record>)
    requires forall k :: 0 <= k < |results| ==> results[k].record.Some?
    ensures |records| == |results| && forall k :: 0 <= k < |results| ==> records[k] == results[k].record.value
  {
    seq(|results|, k requires 0 <= k < |results| => results[k].record.value)
  }

  /** Every rank compares what it gathered; rank 0 also checks the files and replaces the manifest. */
  function Publish(p: Participant, me: nat, rank: Rank, disk: Disk, choice: Choice): (Rank, Disk) {
    var failed := rank.(error := Some(RANK_ERROR));
    if !Agreed(rank.results, p) then (failed, disk)
    else if me != 0 then (rank, disk)
    else if !AllVisible(rank.results, choice.seen) then (failed, disk)
    else
      var published := disk.(manifest := Some(Manifest(|rank.results|, p.step, p.identity, RecordsOf(rank.results))));
      if choice.ok then (rank, published) else (failed, if choice.replaced then published else disk)
  }

  function Worked(p: Participant, me: nat, rank: Rank, disk: Disk, choice: Choice): (Rank, Disk) {
    match rank.phase
    case Preparing => (Prepare(p, rank, choice), disk)
    case Creating => Create(me, rank, disk, choice)
    case Saving => Save(p, me, rank, disk, choice)
    case Publishing => Publish(p, me, rank, disk, choice)
  }

  /** Do the work of the phase, then call the collective that ends it. */
  function Work(s: State, job: seq<Participant>, me: nat, choice: Choice): State
    requires |s.ranks| == |job|
  {
    if me >= |s.ranks| || s.ranks[me].arrived || s.ranks[me].ended.Some? then s
    else
      var (rank, disk) := Worked(job[me], me, s.ranks[me], s.disk, choice);
      State(s.ranks[me := rank.(arrived := true, calls := rank.calls + [rank.phase])], disk)
  }

  // ----- a collective

  predicate AllMet(ranks: seq<Rank>) {
    forall k :: 0 <= k < |ranks| ==> ranks[k].arrived && ranks[k].ended.None?
  }

  function Gather(ranks: seq<Rank>, job: seq<Participant>): (results: seq<Gathered>)
    requires |ranks| == |job|
    ensures |results| == |ranks|
    ensures forall k :: 0 <= k < |ranks| ==> results[k] == Gathered(ranks[k].error, ranks[k].record, job[k].identity, job[k].step)
  {
    seq(|ranks|, k requires 0 <= k < |ranks| => Gathered(ranks[k].error, ranks[k].record, job[k].identity, job[k].step))
  }

  /** `_collect` takes an error into account if its text is not empty. */
  predicate Reported(results: seq<Gathered>) {
    exists k :: 0 <= k < |results| && results[k].error.Some? && results[k].error.value != ""
  }

  /** What a rank does with the values it gathered. */
  function Released(rank: Rank, results: seq<Gathered>): Rank {
    if Reported(results) then rank.(ended := Some(Raised(rank.phase)))
    else match rank.phase
      case Preparing => rank.(phase := Creating, arrived := false)
      case Creating => rank.(phase := Saving, arrived := false)
      case Saving => rank.(phase := Publishing, arrived := false, results := results)
      case Publishing => rank.(ended := Some(Returned))
  }

  function Meet(s: State, job: seq<Participant>): State
    requires |s.ranks| == |job|
  {
    if !AllMet(s.ranks) then s
    else
      var results := Gather(s.ranks, job);
      s.(ranks := seq(|s.ranks|, k requires 0 <= k < |s.ranks| => Released(s.ranks[k], results)))
  }

  function Next(s: State, job: seq<Participant>, event: Event): (after: State)
    requires |s.ranks| == |job|
    ensures |after.ranks| == |job|
  {
    match event
    case Works(rank, choice) => Work(s, job, rank, choice)
    case Meets => Meet(s, job)
  }

  function Run(job: seq<Participant>, disk: Disk, events: seq<Event>): (s: State)
    ensures |s.ranks| == |job|
  {
    if events == [] then Started(job, disk)
    else Next(Run(job, disk, events[..|events| - 1]), job, events[|events| - 1])
  }
}
