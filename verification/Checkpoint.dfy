/** A job's ranks and their shared checkpoint directory, changed step by step. */
module Checkpoint {
  import opened Wrappers
  import Spec = CheckpointSpec
  import T = CheckpointTheorems
  import L = CheckpointLoad

  class SaveJob {
    const job: seq<Spec.Participant>
    var ranks: seq<Spec.Rank>
    var dir: bool
    var files: map<nat, seq<nat>>
    var manifest: Option<Spec.Manifest>

    ghost predicate Valid()
      reads this
    {
      |ranks| == |job|
    }

    function Disk(): Spec.Disk
      reads this
    {
      Spec.Disk(dir, files, manifest)
    }

    ghost function S(): Spec.State
      reads this
    {
      Spec.State(ranks, Disk())
    }

    constructor (job: seq<Spec.Participant>, disk: Spec.Disk)
      ensures this.job == job && Valid() && S() == Spec.Started(job, disk)
    {
      this.job, this.ranks := job, seq(|job|, _ => Spec.FRESH);
      dir, files, manifest := disk.dir, disk.files, disk.manifest;
    }

    /** The work of the publishing phase up to the manifest: the rank's error, or the manifest rank 0 is to write. */
    method Compare(me: nat, seen: seq<nat>) returns (manifest: Option<Spec.Manifest>, failed: bool)
      requires Valid() && me < |job|
      ensures failed <==> !Spec.Agreed(ranks[me].results, job[me]) || (me == 0 && !Spec.AllVisible(ranks[me].results, seen))
      ensures manifest.Some? <==> !failed && me == 0
      ensures manifest.Some? ==>
                manifest.value == Spec.Manifest(|ranks[me].results|, job[me].step, job[me].identity, Spec.RecordsOf(ranks[me].results))
    {
      var results := ranks[me].results;
      for k := 0 to |results|
        invariant forall j :: 0 <= j < k ==> results[j].identity == job[me].identity && results[j].step == job[me].step
      {
        if results[k].identity != job[me].identity || results[k].step != job[me].step {
          return None, true;
        }
      }
      if me != 0 {
        return None, false;
      }
      if |seen| != |results| {
        return None, true;
      }
      var records := [];
      for k := 0 to |results|
        invariant |records| == k
        invariant forall j :: 0 <= j < k ==> results[j].record == Some(records[j]) && seen[j] == records[j].bytes
      {
        if results[k].record.None? || seen[k] != results[k].record.value.bytes {
          return None, true;
        }
        records := records + [results[k].record.value];
      }
      assert records == Spec.RecordsOf(results);
      return Some(Spec.Manifest(|results|, job[me].step, job[me].identity, records)), false;
    }

    /** The rank after the work of its phase; the directory changes with it. */
    method Worked(me: nat, choice: Spec.Choice) returns (rank: Spec.Rank)
      requires Valid() && me < |job|
      modifies this`dir, this`files, this`manifest
      ensures (rank, Disk()) == Spec.Worked(job[me], me, ranks[me], old(Disk()), choice)
    {
      rank := ranks[me];
      match rank.phase {
        case Preparing =>
          if !choice.ok || job[me].step < 0 || job[me].identity.None? {
            rank := rank.(error := Some(Spec.RANK_ERROR));
          }
        case Creating =>
          if me == 0 {
            if !choice.ok {
              rank := rank.(error := Some(choice.message));
            } else if dir {
              rank := rank.(error := Some(Spec.DIRECTORY_EXISTS));
            } else {
              dir := true;
            }
          }
        case Saving =>
          if choice.ok || choice.replaced {
            dir, files := true, files[me := job[me].content];
          }
          if !choice.ok {
            rank := rank.(error := Some(Spec.RANK_ERROR), record := None);
          } else {
            rank := rank.(record := if rank.error.None? then Some(Spec.RecordOf(job[me], me)) else None);
          }
        case Publishing =>
          var written, failed := Compare(me, choice.seen);
          if written.Some? && (choice.ok || choice.replaced) {
            manifest := written;
          }
          if failed || (written.Some? && !choice.ok) {
            rank := rank.(error := Some(Spec.RANK_ERROR));
          }
      }
    }

    method Work(me: nat, choice: Spec.Choice)
      requires Valid()
      modifies this`ranks, this`dir, this`files, this`manifest
      ensures Valid() && S() == Spec.Work(old(S()), job, me, choice)
    {
      hide Spec.Worked;
      if me >= |ranks| || ranks[me].arrived || ranks[me].ended.Some? {
        return;
      }
      var rank := Worked(me, choice);
      ranks := ranks[me := rank.(arrived := true, calls := rank.calls + [rank.phase])];
    }

    /** Once every rank has called, each gets all values and raises or goes on by itself. */
    method Meet()
      requires Valid()
      modifies this`ranks
      ensures Valid() && S() == Spec.Meet(old(S()), job)
    {
      hide Spec.Released, Spec.Reported;
      for k := 0 to |ranks|
        invariant forall j :: 0 <= j < k ==> ranks[j].arrived && ranks[j].ended.None?
      {
        if !ranks[k].arrived || ranks[k].ended.Some? {
          return;
        }
      }
      var results := Spec.Gather(ranks, job);
      var released := [];
      for k := 0 to |ranks|
        invariant |released| == k
        invariant forall j :: 0 <= j < k ==> released[j] == Spec.Released(ranks[j], results)
      {
        released := released + [Spec.Released(ranks[k], results)];
      }
      ranks := released;
    }
  }

  /** Any interleaving of the ranks, with failures anywhere. */
  method Run(job: seq<Spec.Participant>, disk: Spec.Disk, events: seq<Spec.Event>) returns (saved: SaveJob)
    requires job != []
    ensures fresh(saved) && saved.S() == Spec.Run(job, disk, events) && T.Sound(saved.S(), job, disk)
  {
    hide T.Sound, Spec.Work, Spec.Meet, Spec.Started;
    saved := new SaveJob(job, disk);
    assert events[..0] == [];
    for k := 0 to |events|
      invariant fresh(saved) && saved.job == job && saved.Valid() && saved.S() == Spec.Run(job, disk, events[..k])
    {
      assert events[..k + 1][..k] == events[..k];
      match events[k] {
        case Works(me, choice) => saved.Work(me, choice);
        case Meets => saved.Meet();
      }
    }
    assert events[..|events|] == events;
    T.RunSound(job, disk, events);
  }

  /** The checks of a loading rank, in the order the source makes them. */
  method Check(disk: Spec.Disk, world: nat, me: nat, identity: nat, schema: nat) returns (ok: bool)
    requires me < world
    ensures ok <==> L.Checks(disk, world, me, identity, schema)
  {
    if disk.manifest.None? {
      return false;
    }
    var m := disk.manifest.value;
    if m.world != world || |m.records| != world || m.identity != Some(identity) || m.step < 0 {
      return false;
    }
    for owner := 0 to world
      invariant forall o :: 0 <= o < owner ==>
                  m.records[o].file == o && o in disk.files && |disk.files[o]| == m.records[o].bytes
    {
      if m.records[owner].file != owner || owner !in disk.files || |disk.files[owner]| != m.records[owner].bytes {
        return false;
      }
    }
    return m.records[me].schema == schema && Spec.Digest(disk.files[me]) == m.records[me].digest;
  }
}
