/** What every run of a multi-rank save keeps: all ranks meet and end together, and a manifest means completeness. */
module CheckpointTheorems {
  import opened Wrappers
  import opened CheckpointSpec

  // ----- lockstep

  function CallsBefore(phase: Phase): seq<Phase> {
    match phase
    case Preparing => []
    case Creating => [Preparing]
    case Saving => [Preparing, Creating]
    case Publishing => [Preparing, Creating, Saving]
  }

  /** A rank in the phase and with the fate all share, having called exactly the collectives of the phases done. */
  predicate InStep(rank: Rank, phase: Phase, ended: Option<Outcome>) {
    && rank.phase == phase && rank.ended == ended
    && rank.calls == CallsBefore(phase) + (if rank.arrived then [phase] else [])
    && (ended.Some? ==> rank.arrived && (ended.value == Raised(phase) || (ended.value == Returned && phase == Publishing)))
  }

  predicate Lockstep(ranks: seq<Rank>, phase: Phase, ended: Option<Outcome>) {
    forall k :: 0 <= k < |ranks| ==> InStep(ranks[k], phase, ended)
  }

  function PhaseOf(ranks: seq<Rank>): Phase {
    if ranks == [] then Preparing else ranks[0].phase
  }

  function EndOf(ranks: seq<Rank>): Option<Outcome> {
    if ranks == [] then None else ranks[0].ended
  }

  // ----- the directory

  predicate CompleteFor(m: Manifest, job: seq<Participant>, files: map<nat, seq<nat>>) {
    && m.world == |m.records| == |job| && m.step >= 0 && m.identity.Some?
    && forall r :: 0 <= r < |job| ==>
         && job[r].step == m.step && job[r].identity == m.identity
         && m.records[r] == RecordOf(job[r], r) && r in files && files[r] == job[r].content
  }

  /** A rank's record describes the file it wrote. */
  predicate Recorded(rank: Rank, p: Participant, me: nat, files: map<nat, seq<nat>>) {
    rank.record.Some? ==>
      rank.error.None? && rank.record.value == RecordOf(p, me) && me in files && files[me] == p.content
  }

  /** What a rank carries into and out of the work of its phase. An error carried into it can only be rank 0's
      mkdir error with an empty text. */
  predicate RankFits(rank: Rank, p: Participant, me: nat, files: map<nat, seq<nat>>) {
    && (!rank.arrived && rank.error.Some? ==> rank.error.value == "" && (rank.phase.Saving? || rank.phase.Publishing?))
    && (rank.error.Some? && rank.error.value == "" ==> me == 0 && !rank.phase.Preparing?)
    && (rank.phase.Preparing? || rank.phase.Creating? || (rank.phase.Saving? && !rank.arrived) ==> rank.record.None?)
    && (rank.phase.Saving? && rank.arrived && rank.error.None? ==> rank.record.Some?)
    && (rank.phase.Creating? && me != 0 ==> rank.error.None?)
    && (!rank.phase.Publishing? ==> Recorded(rank, p, me, files))
    && (!rank.phase.Preparing? || (rank.arrived && rank.error.None?) ==> p.step >= 0 && p.identity.Some?)
  }

  predicate AllFit(ranks: seq<Rank>, job: seq<Participant>, files: map<nat, seq<nat>>) {
    |ranks| == |job| && forall k :: 0 <= k < |job| ==> RankFits(ranks[k], job[k], k, files)
  }

  /** In the last phase every rank holds what all of them gathered: the records of the files there are. */
  predicate Held(results: seq<Gathered>, job: seq<Participant>, files: map<nat, seq<nat>>) {
    && |results| == |job|
    && forall k :: 0 <= k < |job| ==>
         && results[k].identity == job[k].identity && results[k].step == job[k].step
         && (results[k].record.Some? ==>
               results[k].record.value == RecordOf(job[k], k) && k in files && files[k] == job[k].content)
  }

  predicate AllHeld(ranks: seq<Rank>, job: seq<Participant>, files: map<nat, seq<nat>>) {
    PhaseOf(ranks).Publishing? ==> forall k :: 0 <= k < |ranks| ==> Held(ranks[k].results, job, files)
  }

  /** As long as rank 0 reported no error the directory was new; once it carries an empty one it has no record. */
  predicate NewUnless(ranks: seq<Rank>, before: Disk, disk: Disk) {
    ranks != [] ==>
      match ranks[0].phase
      case Preparing => disk == before
      case Creating =>
        if !ranks[0].arrived then disk == before
        else if ranks[0].error.Some? then disk == before else !before.dir && disk == before.(dir := true)
      case Saving => ranks[0].error.None? ==> !before.dir
      case Publishing =>
        |ranks[0].results| > 0 && (ranks[0].results[0].record.Some? ==> !before.dir)
  }

  predicate PublishedOnlyComplete(job: seq<Participant>, before: Disk, disk: Disk) {
    disk.manifest == before.manifest || (!before.dir && disk.manifest.Some? && CompleteFor(disk.manifest.value, job, disk.files))
  }

  predicate Unpublished(ranks: seq<Rank>, before: Disk, disk: Disk) {
    ranks != [] && (ranks[0].phase.Publishing? ==> !ranks[0].arrived) ==> disk.manifest == before.manifest
  }

  /** Once rank 0 has been through the last phase with nothing to report, the manifest is there. */
  predicate PublishedIfClean(ranks: seq<Rank>, job: seq<Participant>, disk: Disk) {
    ranks != [] && ranks[0].phase.Publishing? && ranks[0].arrived && (ranks[0].error.Some? ==> ranks[0].error.value == "") ==>
      disk.manifest.Some? && CompleteFor(disk.manifest.value, job, disk.files)
  }

  predicate Sound(s: State, job: seq<Participant>, before: Disk) {
    && Lockstep(s.ranks, PhaseOf(s.ranks), EndOf(s.ranks))
    && AllFit(s.ranks, job, s.disk.files) && AllHeld(s.ranks, job, s.disk.files)
    && NewUnless(s.ranks, before, s.disk)
    && PublishedOnlyComplete(job, before, s.disk) && Unpublished(s.ranks, before, s.disk)
    && PublishedIfClean(s.ranks, job, s.disk)
  }

  lemma StartedSound(job: seq<Participant>, before: Disk)
    requires job != []
    ensures Sound(Started(job, before), job, before)
  {
  }

  // ----- a rank's own work

  lemma WorkedKeeps(p: Participant, me: nat, rank: Rank, disk: Disk, choice: Choice)
    ensures var after := Worked(p, me, rank, disk, choice).0;
            && after.phase == rank.phase && after.arrived == rank.arrived && after.ended == rank.ended
            && after.calls == rank.calls && after.results == rank.results
  {
  }

  /** Only saving writes rank files, and each rank only its own. */
  lemma WorkedFiles(p: Participant, me: nat, rank: Rank, disk: Disk, choice: Choice)
    ensures var after := Worked(p, me, rank, disk, choice).1;
            after.files == disk.files || (rank.phase.Saving? && after.files == disk.files[me := p.content])
  {
  }

  lemma WorkedFits(p: Participant, me: nat, rank: Rank, disk: Disk, choice: Choice)
    requires RankFits(rank, p, me, disk.files) && !rank.arrived
    ensures var (after, written) := Worked(p, me, rank, disk, choice);
            RankFits(after.(arrived := true, calls := rank.calls + [rank.phase]), p, me, written.files)
  {
  }

  lemma OthersFit(rank: Rank, p: Participant, me: nat, files: map<nat, seq<nat>>, other: nat, content: seq<nat>)
    requires RankFits(rank, p, me, files) && other != me
    ensures RankFits(rank, p, me, files[other := content])
  {
  }

  function Called(rank: Rank): Rank {
    rank.(arrived := true, calls := rank.calls + [rank.phase])
  }

  lemma StepsTogether(ranks: seq<Rank>, me: nat, after: Rank)
    requires Lockstep(ranks, PhaseOf(ranks), EndOf(ranks)) && me < |ranks| && !ranks[me].arrived && ranks[me].ended.None?
    requires after.phase == ranks[me].phase && after.ended == ranks[me].ended && after.calls == ranks[me].calls
    ensures var called := ranks[me := Called(after)]; Lockstep(called, PhaseOf(called), EndOf(called))
    ensures PhaseOf(ranks[me := Called(after)]) == PhaseOf(ranks) == after.phase
  {
    assert InStep(ranks[me], PhaseOf(ranks), EndOf(ranks));
  }

  lemma AllStillFit(s: State, job: seq<Participant>, me: nat, choice: Choice)
    requires |s.ranks| == |job| && me < |job| && AllFit(s.ranks, job, s.disk.files) && !s.ranks[me].arrived
    ensures var (after, disk) := Worked(job[me], me, s.ranks[me], s.disk, choice);
            AllFit(s.ranks[me := Called(after)], job, disk.files)
  {
    hide Worked, RankFits;
    var (after, disk) := Worked(job[me], me, s.ranks[me], s.disk, choice);
    var called := s.ranks[me := Called(after)];
    WorkedKeeps(job[me], me, s.ranks[me], s.disk, choice);
    WorkedFiles(job[me], me, s.ranks[me], s.disk, choice);
    forall k | 0 <= k < |job| ensures RankFits(called[k], job[k], k, disk.files) {
      if k == me {
        WorkedFits(job[me], me, s.ranks[me], s.disk, choice);
      } else {
        OthersFit(s.ranks[k], job[k], k, s.disk.files, me, job[me].content);
      }
    }
  }

  lemma AllStillHeld(ranks: seq<Rank>, job: seq<Participant>, files: map<nat, seq<nat>>, me: nat, after: Rank)
    requires me < |ranks| && AllHeld(ranks, job, files)
    requires after.phase == ranks[me].phase && after.results == ranks[me].results
    ensures AllHeld(ranks[me := Called(after)], job, files)
  {
    hide Held;
  }

  lemma NothingHeld(ranks: seq<Rank>, job: seq<Participant>, files: map<nat, seq<nat>>, me: nat, after: Rank)
    requires me < |ranks| && PhaseOf(ranks).Saving? && after.phase.Saving?
    ensures AllHeld(ranks[me := Called(after)], job, files)
  {
  }

  lemma StillNew(ranks: seq<Rank>, p: Participant, before: Disk, disk: Disk, me: nat, choice: Choice)
    requires me < |ranks| && NewUnless(ranks, before, disk) && !ranks[me].arrived
    requires ranks[me].phase == PhaseOf(ranks) && RankFits(ranks[me], p, me, disk.files)
    ensures var (after, written) := Worked(p, me, ranks[me], disk, choice);
            NewUnless(ranks[me := Called(after)], before, written)
  {
  }

  /** The manifest rank 0 writes is complete. */
  lemma PublishesComplete(rank: Rank, job: seq<Participant>, disk: Disk, choice: Choice)
    requires job != [] && Held(rank.results, job, disk.files) && RankFits(rank, job[0], 0, disk.files) && rank.phase.Publishing?
    ensures var after := Publish(job[0], 0, rank, disk, choice).1;
            && after == disk.(manifest := after.manifest)
            && (after.manifest == disk.manifest
                || (after.manifest.Some? && CompleteFor(after.manifest.value, job, disk.files) && rank.results[0].record.Some?))
    ensures var (done, after) := Publish(job[0], 0, rank, disk, choice);
            done.error != Some(RANK_ERROR) ==> after.manifest.Some? && CompleteFor(after.manifest.value, job, disk.files)
  {
    var after := Publish(job[0], 0, rank, disk, choice).1;
    if Agreed(rank.results, job[0]) && AllVisible(rank.results, choice.seen) {
      forall r | 0 <= r < |job|
        ensures job[r].step == job[0].step && job[r].identity == job[0].identity
        ensures rank.results[r].record == Some(RecordOf(job[r], r)) && r in disk.files && disk.files[r] == job[r].content
      {
        assert rank.results[r].identity == job[r].identity && rank.results[r].step == job[r].step;
      }
    }
  }

  lemma OnlyRankZeroPublishes(p: Participant, me: nat, rank: Rank, disk: Disk, choice: Choice)
    ensures var after := Worked(p, me, rank, disk, choice).1;
            me != 0 || !rank.phase.Publishing? ==> after.manifest == disk.manifest
    ensures var after := Worked(p, me, rank, disk, choice).1;
            me != 0 && rank.phase.Publishing? ==> after == disk
  {
  }

  lemma StillComplete(s: State, job: seq<Participant>, before: Disk, me: nat, choice: Choice)
    requires |s.ranks| == |job| && me < |job| && !s.ranks[me].arrived && s.ranks[me].phase == PhaseOf(s.ranks)
    requires AllFit(s.ranks, job, s.disk.files) && AllHeld(s.ranks, job, s.disk.files) && NewUnless(s.ranks, before, s.disk)
    requires PublishedOnlyComplete(job, before, s.disk) && Unpublished(s.ranks, before, s.disk)
    requires PublishedIfClean(s.ranks, job, s.disk)
    ensures var (after, disk) := Worked(job[me], me, s.ranks[me], s.disk, choice);
            PublishedOnlyComplete(job, before, disk) && Unpublished(s.ranks[me := Called(after)], before, disk)
            && PublishedIfClean(s.ranks[me := Called(after)], job, disk)
  {
    hide CompleteFor, Held, RankFits, Save, Create, Prepare, Publish;
    WorkedKeeps(job[me], me, s.ranks[me], s.disk, choice);
    OnlyRankZeroPublishes(job[me], me, s.ranks[me], s.disk, choice);
    if me == 0 && s.ranks[me].phase.Publishing? {
      PublishesComplete(s.ranks[0], job, s.disk, choice);
    }
  }

  lemma WorkSound(s: State, job: seq<Participant>, before: Disk, me: nat, choice: Choice)
    requires job != [] && |s.ranks| == |job| && Sound(s, job, before)
    ensures Sound(Work(s, job, me, choice), job, before)
  {
    hide Lockstep, AllFit, AllHeld, NewUnless, PublishedOnlyComplete, Unpublished, PublishedIfClean, Worked, PhaseOf, EndOf;
    if me < |s.ranks| && !s.ranks[me].arrived && s.ranks[me].ended.None? {
      var (after, disk) := Worked(job[me], me, s.ranks[me], s.disk, choice);
      PhaseAt(s.ranks, me);
      WorkedKeeps(job[me], me, s.ranks[me], s.disk, choice);
      WorkedFiles(job[me], me, s.ranks[me], s.disk, choice);
      StepsTogether(s.ranks, me, after);
      AllStillFit(s, job, me, choice);
      if disk.files == s.disk.files {
        AllStillHeld(s.ranks, job, disk.files, me, after);
      } else {
        NothingHeld(s.ranks, job, disk.files, me, after);
      }
      FitAt(s.ranks, job, s.disk.files, me);
      StillNew(s.ranks, job[me], before, s.disk, me, choice);
      StillComplete(s, job, before, me, choice);
      assert Work(s, job, me, choice) == State(s.ranks[me := Called(after)], disk);
    }
  }

  lemma PhaseAt(ranks: seq<Rank>, k: nat)
    requires k < |ranks| && Lockstep(ranks, PhaseOf(ranks), EndOf(ranks))
    ensures InStep(ranks[k], PhaseOf(ranks), EndOf(ranks)) && ranks[k].phase == PhaseOf(ranks) && ranks[k].ended == EndOf(ranks)
  {
  }

  lemma FitAt(ranks: seq<Rank>, job: seq<Participant>, files: map<nat, seq<nat>>, k: nat)
    requires k < |job| && AllFit(ranks, job, files)
    ensures k < |ranks| && RankFits(ranks[k], job[k], k, files)
  {
  }

  // ----- a collective

  lemma ReleasedInStep(rank: Rank, phase: Phase, results: seq<Gathered>)
    requires InStep(rank, phase, None) && rank.arrived
    ensures InStep(Released(rank, results), Released(rank, results).phase, Released(rank, results).ended)
    ensures Released(rank, results).phase == (if Reported(results) then phase else match phase
              case Preparing => Creating case Creating => Saving case Saving => Publishing case Publishing => Publishing)
    ensures Released(rank, results).ended == (if Reported(results) then Some(Raised(phase))
              else if phase.Publishing? then Some(Returned) else None)
  {
  }

  lemma ReleasedFits(rank: Rank, p: Participant, me: nat, files: map<nat, seq<nat>>, results: seq<Gathered>)
    requires RankFits(rank, p, me, files) && rank.arrived && me < |results| && results[me].error == rank.error
    ensures RankFits(Released(rank, results), p, me, files)
  {
  }

  lemma GatheredHeld(ranks: seq<Rank>, job: seq<Participant>, files: map<nat, seq<nat>>)
    requires AllFit(ranks, job, files) && Lockstep(ranks, Saving, None)
    ensures Held(Gather(ranks, job), job, files)
  {
    forall k | 0 <= k < |job| ensures RankFits(ranks[k], job[k], k, files) && ranks[k].phase.Saving? {
      assert InStep(ranks[k], Saving, None);
    }
  }

  lemma MetLockstep(ranks: seq<Rank>, results: seq<Gathered>, after: seq<Rank>)
    requires AllMet(ranks) && Lockstep(ranks, PhaseOf(ranks), EndOf(ranks)) && |after| == |ranks| > 0
    requires forall k :: 0 <= k < |ranks| ==> after[k] == Released(ranks[k], results)
    ensures Lockstep(after, PhaseOf(after), EndOf(after))
  {
    forall k | 0 <= k < |ranks| ensures InStep(after[k], PhaseOf(after), EndOf(after)) {
      assert InStep(ranks[k], PhaseOf(ranks), EndOf(ranks)) && InStep(ranks[0], PhaseOf(ranks), EndOf(ranks));
      ReleasedInStep(ranks[k], PhaseOf(ranks), results);
      ReleasedInStep(ranks[0], PhaseOf(ranks), results);
    }
  }

  lemma MetHeld(ranks: seq<Rank>, job: seq<Participant>, files: map<nat, seq<nat>>, after: seq<Rank>)
    requires AllMet(ranks) && Lockstep(ranks, PhaseOf(ranks), EndOf(ranks)) && |after| == |ranks| == |job| > 0
    requires forall k :: 0 <= k < |ranks| ==> after[k] == Released(ranks[k], Gather(ranks, job))
    requires AllFit(ranks, job, files) && AllHeld(ranks, job, files)
    ensures AllHeld(after, job, files)
  {
    hide AllFit, Held, Reported;
    if PhaseOf(ranks).Saving? {
      GatheredHeld(ranks, job, files);
    }
  }

  lemma MetNew(ranks: seq<Rank>, job: seq<Participant>, files: map<nat, seq<nat>>, before: Disk, disk: Disk, after: seq<Rank>)
    requires AllMet(ranks) && |after| == |ranks| == |job| > 0 && AllFit(ranks, job, files)
    requires after[0] == Released(ranks[0], Gather(ranks, job))
    requires NewUnless(ranks, before, disk) && Unpublished(ranks, before, disk) && PublishedIfClean(ranks, job, disk)
    ensures NewUnless(after, before, disk) && Unpublished(after, before, disk) && PublishedIfClean(after, job, disk)
  {
    hide Reported;
    assert RankFits(ranks[0], job[0], 0, files);
  }

  lemma MeetSound(s: State, job: seq<Participant>, before: Disk)
    requires job != [] && |s.ranks| == |job| && Sound(s, job, before)
    ensures Sound(Meet(s, job), job, before)
  {
    hide Lockstep, AllHeld, NewUnless, PublishedOnlyComplete, Unpublished, PublishedIfClean, Released, RankFits, PhaseOf, EndOf;
    if AllMet(s.ranks) {
      var results := Gather(s.ranks, job);
      var after := Meet(s, job).ranks;
      MetLockstep(s.ranks, results, after);
      MetHeld(s.ranks, job, s.disk.files, after);
      MetNew(s.ranks, job, s.disk.files, before, s.disk, after);
      forall k | 0 <= k < |job| ensures RankFits(after[k], job[k], k, s.disk.files) {
        ReleasedFits(s.ranks[k], job[k], k, s.disk.files, results);
      }
    }
  }

  lemma {:induction false} RunSound(job: seq<Participant>, before: Disk, events: seq<Event>)
    requires job != []
    ensures Sound(Run(job, before, events), job, before)
  {
    hide Sound, Work, Meet, Started;
    if events == [] {
      StartedSound(job, before);
    } else {
      RunSound(job, before, events[..|events| - 1]);
      var s := Run(job, before, events[..|events| - 1]);
      match events[|events| - 1]
      case Works(me, choice) => WorkSound(s, job, before, me, choice);
      case Meets => MeetSound(s, job, before);
    }
  }

  // ----- the promises

  /** All ranks call the same collectives in the same order: at any time any two have called the same ones, but
      for the collective one of them is still to call; they raise or return together, after the same one. */
  lemma SameCollectives(job: seq<Participant>, before: Disk, events: seq<Event>, j: nat, k: nat)
    requires j < |job| && k < |job|
    ensures var ranks := Run(job, before, events).ranks;
            && ranks[j].phase == ranks[k].phase && ranks[j].ended == ranks[k].ended
            && (ranks[j].calls == ranks[k].calls || ranks[j].calls == ranks[k].calls + [ranks[k].phase]
                || ranks[k].calls == ranks[j].calls + [ranks[j].phase])
            && (ranks[j].ended.Some? ==> ranks[j].calls == ranks[k].calls == CallsBefore(ranks[j].phase) + [ranks[j].phase])
            && (ranks[j].ended.Some? && ranks[j].ended.value.Raised? ==> ranks[j].ended.value.at == ranks[j].phase)
  {
    hide Run;
    RunSound(job, before, events);
    var ranks := Run(job, before, events).ranks;
    assert InStep(ranks[j], PhaseOf(ranks), EndOf(ranks)) && InStep(ranks[k], PhaseOf(ranks), EndOf(ranks));
  }

  /** Nobody waits for a rank that is gone: until all have ended, some rank still works or all meet. */
  lemma NeverHangs(job: seq<Participant>, before: Disk, events: seq<Event>)
    requires job != []
    ensures var ranks := Run(job, before, events).ranks;
            || (forall k :: 0 <= k < |job| ==> ranks[k].ended.Some?)
            || AllMet(ranks)
            || exists k :: 0 <= k < |job| && !ranks[k].arrived && ranks[k].ended.None?
  {
    hide Run;
    RunSound(job, before, events);
    var ranks := Run(job, before, events).ranks;
    forall k | 0 <= k < |job| ensures ranks[k].ended == EndOf(ranks) {
      assert InStep(ranks[k], PhaseOf(ranks), EndOf(ranks));
    }
  }

  /** A manifest exists only if every rank file is there in full under its recorded size and digest, and all
      ranks agreed on the step and identity. */
  lemma ManifestMeansComplete(job: seq<Participant>, before: Disk, events: seq<Event>)
    requires job != [] && ValidDisk(before) && !before.dir
    ensures var disk := Run(job, before, events).disk; disk.manifest.Some? ==> CompleteFor(disk.manifest.value, job, disk.files)
  {
    hide Run, CompleteFor;
    RunSound(job, before, events);
  }

  /** If the save returns on any rank, the checkpoint is complete. */
  lemma ReturnMeansPublished(job: seq<Participant>, before: Disk, events: seq<Event>, k: nat)
    requires k < |job| && Run(job, before, events).ranks[k].ended == Some(Returned)
    ensures var disk := Run(job, before, events).disk; disk.manifest.Some? && CompleteFor(disk.manifest.value, job, disk.files)
  {
    hide Run, CompleteFor;
    CleanReturn(job, before, events);
    RunSound(job, before, events);
    PhaseAt(Run(job, before, events).ranks, k);
  }

  predicate Clean(rank: Rank) {
    rank.ended == Some(Returned) ==> rank.phase.Publishing? && rank.arrived && (rank.error.Some? ==> rank.error.value == "")
  }

  /** Ranks that return had nothing to report. */
  lemma {:induction false} CleanReturn(job: seq<Participant>, before: Disk, events: seq<Event>)
    requires job != []
    ensures Clean(Run(job, before, events).ranks[0])
  {
    hide Work, Meet;
    if events != [] {
      var s := Run(job, before, events[..|events| - 1]);
      CleanReturn(job, before, events[..|events| - 1]);
      match events[|events| - 1]
      case Works(me, choice) => WorkClean(s, job, me, choice);
      case Meets => MeetClean(s, job);
    }
  }

  lemma WorkClean(s: State, job: seq<Participant>, me: nat, choice: Choice)
    requires |s.ranks| == |job| > 0 && Clean(s.ranks[0])
    ensures |Work(s, job, me, choice).ranks| == |job| && Clean(Work(s, job, me, choice).ranks[0])
  {
    hide Worked;
    if me < |job| {
      WorkedKeeps(job[me], me, s.ranks[me], s.disk, choice);
    }
  }

  lemma MeetClean(s: State, job: seq<Participant>)
    requires |s.ranks| == |job| > 0 && Clean(s.ranks[0])
    ensures |Meet(s, job).ranks| == |job| && Clean(Meet(s, job).ranks[0])
  {
    if AllMet(s.ranks) {
      assert Gather(s.ranks, job)[0].error == s.ranks[0].error;
      assert Meet(s, job).ranks[0] == Released(s.ranks[0], Gather(s.ranks, job));
    }
  }

  /** An existing checkpoint's manifest is never replaced. */
  lemma ManifestNeverReplaced(job: seq<Participant>, before: Disk, events: seq<Event>)
    requires job != [] && before.dir
    ensures Run(job, before, events).disk.manifest == before.manifest
  {
    hide Run;
    RunSound(job, before, events);
  }

  // ----- a failed mkdir

  /** A failed mkdir stops every rank at the second collective exactly if its error has a text: an empty text
      counts as none, and all ranks go on to write their files. */
  lemma FailedMkdirStops(job: seq<Participant>, before: Disk, events: seq<Event>)
    requires job != []
    requires var ranks := Run(job, before, events).ranks;
             AllMet(ranks) && ranks[0].phase.Creating? && ranks[0].error.Some?
    ensures var s := Run(job, before, events);
            s.ranks[0].error.value != "" <==>
              forall k :: 0 <= k < |job| ==> Meet(s, job).ranks[k].ended == Some(Raised(Creating))
    ensures var s := Run(job, before, events);
            s.ranks[0].error.value == "" ==> forall k :: 0 <= k < |job| ==> Meet(s, job).ranks[k].phase == Saving
  {
    hide Run;
    RunSound(job, before, events);
    var s := Run(job, before, events);
    var results := Gather(s.ranks, job);
    forall k | 0 <= k < |job| ensures s.ranks[k].phase.Creating? && (k != 0 ==> results[k].error.None?) {
      PhaseAt(s.ranks, k);
      PhaseAt(s.ranks, 0);
      assert RankFits(s.ranks[k], job[k], k, s.disk.files);
    }
    assert Meet(s, job).ranks[0] == Released(s.ranks[0], results);
  }

  /** Whatever makes mkdir fail has a text. */
  predicate Texted(job: seq<Participant>, before: Disk, events: seq<Event>)
    requires job != []
  {
    if events == [] then true
    else
      var front, last := events[..|events| - 1], events[|events| - 1];
      && Texted(job, before, front)
      && (last.Works? && last.rank == 0 && !last.choice.ok && Run(job, before, front).ranks[0].phase.Creating? ==>
            last.choice.message != "")
  }

  predicate Blocked(ranks: seq<Rank>, before: Disk, disk: Disk) {
    && disk == before && ranks != [] && (ranks[0].phase.Preparing? || ranks[0].phase.Creating?)
    && (ranks[0].phase.Creating? && ranks[0].arrived ==> ranks[0].error.Some? && ranks[0].error.value != "")
  }

  /** Then a save never touches an existing directory. */
  lemma {:induction false} ExistingUntouched(job: seq<Participant>, before: Disk, events: seq<Event>)
    requires job != [] && before.dir && Texted(job, before, events)
    ensures Run(job, before, events).disk == before
    ensures Blocked(Run(job, before, events).ranks, before, Run(job, before, events).disk)
  {
    hide Started, Sound, Gather, RecordsOf, Publish, Save, Prepare;
    if events == [] {
      StartedBlocked(job, before);
    } else {
      var earlier := events[..|events| - 1];
      ExistingUntouched(job, before, earlier);
      RunSound(job, before, earlier);
      var s := Run(job, before, earlier);
      match events[|events| - 1]
      case Works(me, choice) => WorkBlocked(s, job, before, me, choice);
      case Meets => MeetBlocked(s, job, before);
    }
  }

  lemma StartedBlocked(job: seq<Participant>, before: Disk)
    requires job != []
    ensures Blocked(Started(job, before).ranks, before, Started(job, before).disk)
  {
  }

  lemma WorkBlocked(s: State, job: seq<Participant>, before: Disk, me: nat, choice: Choice)
    requires job != [] && |s.ranks| == |job| && Sound(s, job, before) && before.dir
    requires me == 0 && !choice.ok && s.ranks[0].phase.Creating? ==> choice.message != ""
    requires Blocked(s.ranks, before, s.disk)
    ensures var after := Work(s, job, me, choice); Blocked(after.ranks, before, after.disk)
  {
    hide AllFit, AllHeld, NewUnless, PublishedOnlyComplete, Unpublished, PublishedIfClean, Publish, Save;
    if me < |job| {
      PhaseAt(s.ranks, me);
    }
  }

  lemma MeetBlocked(s: State, job: seq<Participant>, before: Disk)
    requires job != [] && |s.ranks| == |job| && Blocked(s.ranks, before, s.disk)
    ensures var after := Meet(s, job); Blocked(after.ranks, before, after.disk)
  {
    if AllMet(s.ranks) {
      var results := Gather(s.ranks, job);
      assert results[0].error == s.ranks[0].error;
      assert Meet(s, job).ranks[0] == Released(s.ranks[0], results);
    }
  }

  // ----- exactly when a save changes an existing directory

  /** The directory holds something else than some rank is about to save. */
  predicate Differs(job: seq<Participant>, disk: Disk) {
    exists r :: 0 <= r < |job| && (r !in disk.files || disk.files[r] != job[r].content)
  }

  /** All ranks have met after a failed mkdir with a text, or have raised because of it. */
  ghost predicate Halted(s: State, before: Disk) {
    && s.ranks != [] && s.disk == before && (forall k :: 0 <= k < |s.ranks| ==> s.ranks[k].arrived)
    && (if AllMet(s.ranks) then s.ranks[0].error.Some? && s.ranks[0].error.value != ""
        else forall k :: 0 <= k < |s.ranks| ==> s.ranks[k].ended.Some?)
  }

  lemma HaltedStays(s: State, job: seq<Participant>, before: Disk, event: Event)
    requires |s.ranks| == |job| && Halted(s, before)
    ensures Halted(Next(s, job, event), before)
  {
    if event.Meets? && AllMet(s.ranks) {
      var results := Gather(s.ranks, job);
      assert results[0].error == s.ranks[0].error;
      forall k | 0 <= k < |s.ranks|
        ensures Meet(s, job).ranks[k].arrived && Meet(s, job).ranks[k].ended.Some?
      {
        assert Meet(s, job).ranks[k] == Released(s.ranks[k], results);
      }
      assert !AllMet(Meet(s, job).ranks) by {
        assert Meet(s, job).ranks[0].ended.Some?;
      }
    }
  }

  lemma {:induction false} HaltedForGood(job: seq<Participant>, before: Disk, events: seq<Event>, more: seq<Event>)
    requires job != [] && Halted(Run(job, before, events), before)
    ensures Halted(Run(job, before, events + more), before)
    decreases |more|
  {
    hide Halted, Next;
    if more == [] {
      assert events + more == events;
    } else {
      HaltedForGood(job, before, events, more[..|more| - 1]);
      HaltedStays(Run(job, before, events + more[..|more| - 1]), job, before, more[|more| - 1]);
      assert (events + more)[..|events + more| - 1] == events + more[..|more| - 1];
    }
  }

  lemma WorkRewrites(s: State, job: seq<Participant>, before: Disk, me: nat, choice: Choice)
    requires |s.ranks| == |job| && !Differs(job, before) && s.disk.files == before.files && s.disk.dir
    ensures Work(s, job, me, choice).disk.files == before.files && Work(s, job, me, choice).disk.dir
  {
    hide Publish;
    if me < |job| {
      assert me in before.files && before.files[me] == job[me].content;
      PublishFiles(job[me], me, s.ranks[me], s.disk, choice);
    }
  }

  lemma PublishFiles(p: Participant, me: nat, rank: Rank, disk: Disk, choice: Choice)
    ensures var after := Publish(p, me, rank, disk, choice).1; after.files == disk.files && after.dir == disk.dir
  {
    hide Agreed, AllVisible, RecordsOf;
  }

  /** With nothing else to save, every save rewrites what is there. */
  lemma {:induction false} SameIsRewritten(job: seq<Participant>, before: Disk, events: seq<Event>)
    requires job != [] && before.dir && !Differs(job, before)
    ensures Run(job, before, events).disk.files == before.files && Run(job, before, events).disk.dir
  {
    hide Work, Meet, Differs;
    if events != [] {
      var s := Run(job, before, events[..|events| - 1]);
      SameIsRewritten(job, before, events[..|events| - 1]);
      match events[|events| - 1]
      case Works(me, choice) => WorkRewrites(s, job, before, me, choice);
      case Meets => MeetKeepsDisk(s, job);
    }
  }

  lemma MeetKeepsDisk(s: State, job: seq<Participant>)
    requires |s.ranks| == |job|
    ensures Meet(s, job).disk == s.disk
  {
  }

  /** Past an empty text, any rank overwrites its file. */
  lemma OverwritesNext(job: seq<Participant>, before: Disk, events: seq<Event>, r: nat)
    requires job != [] && r < |job|
    requires var ranks := Run(job, before, events).ranks; AllMet(ranks) && ranks[0].phase.Creating?
    requires Run(job, before, events).ranks[0].error == Some("")
    ensures var disk := Run(job, before, events + [Meets, Works(r, Choice(true, false, "", []))]).disk;
            r in disk.files && disk.files[r] == job[r].content
  {
    hide Run, AllMet, Sound;
    var s, works := Run(job, before, events), Works(r, Choice(true, false, "", []));
    FailedMkdirStops(job, before, events);
    RunNext(job, before, events, Meets);
    RunNext(job, before, events + [Meets], works);
    assert events + [Meets] + [works] == events + [Meets, works];
    AllCreating(job, before, events, r);
    MetGoesOn(s, job, r);
    SavesNow(Meet(s, job), job, r);
  }

  lemma AllCreating(job: seq<Participant>, before: Disk, events: seq<Event>, r: nat)
    requires job != [] && r < |job| && Run(job, before, events).ranks[0].phase.Creating?
    ensures Run(job, before, events).ranks[r].phase == Creating
  {
    hide Run, Lockstep, AllFit, AllHeld, NewUnless, PublishedOnlyComplete, Unpublished, PublishedIfClean;
    RunSound(job, before, events);
    PhaseAt(Run(job, before, events).ranks, 0);
    PhaseAt(Run(job, before, events).ranks, r);
  }

  lemma RunNext(job: seq<Participant>, before: Disk, events: seq<Event>, event: Event)
    ensures Run(job, before, events + [event]) == Next(Run(job, before, events), job, event)
  {
    assert (events + [event])[..|events|] == events;
  }

  lemma MetGoesOn(s: State, job: seq<Participant>, r: nat)
    requires |s.ranks| == |job| && AllMet(s.ranks) && r < |job| && Meet(s, job).ranks[r].phase == Saving
    requires s.ranks[r].phase == Creating
    ensures !Meet(s, job).ranks[r].arrived && Meet(s, job).ranks[r].ended.None?
  {
    assert Meet(s, job).ranks[r] == Released(s.ranks[r], Gather(s.ranks, job));
  }

  lemma SavesNow(s: State, job: seq<Participant>, r: nat)
    requires |s.ranks| == |job| && r < |job| && s.ranks[r].phase == Saving && !s.ranks[r].arrived && s.ranks[r].ended.None?
    ensures var disk := Work(s, job, r, Choice(true, false, "", [])).disk;
            r in disk.files && disk.files[r] == job[r].content
  {
  }

  ghost predicate Changes(job: seq<Participant>, before: Disk, events: seq<Event>, more: seq<Event>) {
    Run(job, before, events + more).disk != before
  }

  /** When all ranks have met after rank 0's mkdir in an existing directory, some way to go on changes the directory
      exactly if the exception had no text, and there is something else to save than what is there. */
  lemma ExistingChangesIff(job: seq<Participant>, before: Disk, events: seq<Event>)
    requires job != [] && before.dir
    requires var ranks := Run(job, before, events).ranks; AllMet(ranks) && ranks[0].phase.Creating?
    ensures var s := Run(job, before, events);
            && s.disk == before && s.ranks[0].error.Some?
            && ((exists more :: Changes(job, before, events, more)) <==>
                  s.ranks[0].error.value == "" && Differs(job, before))
  {
    hide Run, Sound, Halted, Differs, AllMet;
    var s := Run(job, before, events);
    MkdirFailed(job, before, events);
    if s.ranks[0].error.value != "" {
      NowHalted(s, before);
      forall more ensures !Changes(job, before, events, more) {
        HaltedForGood(job, before, events, more);
        HaltedDisk(Run(job, before, events + more), before);
      }
    } else if Differs(job, before) {
      var r := Different(job, before);
      var more := [Meets, Works(r, Choice(true, false, "", []))];
      OverwritesNext(job, before, events, r);
      assert Changes(job, before, events, more);
    } else {
      forall more ensures !Changes(job, before, events, more) {
        SameIsRewritten(job, before, events + more);
        ManifestNeverReplaced(job, before, events + more);
      }
    }
  }

  lemma MkdirFailed(job: seq<Participant>, before: Disk, events: seq<Event>)
    requires job != [] && before.dir
    requires var ranks := Run(job, before, events).ranks; AllMet(ranks) && ranks[0].phase.Creating?
    ensures var s := Run(job, before, events); s.disk == before && s.ranks[0].error.Some?
  {
    hide Run, Lockstep, AllFit, AllHeld, PublishedOnlyComplete, Unpublished, PublishedIfClean;
    RunSound(job, before, events);
  }

  lemma NowHalted(s: State, before: Disk)
    requires s.ranks != [] && AllMet(s.ranks) && s.disk == before
    requires s.ranks[0].error.Some? && s.ranks[0].error.value != ""
    ensures Halted(s, before)
  {
  }

  lemma HaltedDisk(s: State, before: Disk)
    requires Halted(s, before)
    ensures s.disk == before
  {
  }

  lemma Different(job: seq<Participant>, disk: Disk) returns (r: nat)
    requires Differs(job, disk)
    ensures r < |job| && (r !in disk.files || disk.files[r] != job[r].content)
  {
    r :| 0 <= r < |job| && (r !in disk.files || disk.files[r] != job[r].content);
  }

  /** Otherwise it may: a bare `MemoryError` in the mkdir of an existing checkpoint, and rank 0's file is overwritten. */
  lemma ExistingOverwritten()
    ensures var job := [Participant(7, Some(1), 0, [2])];
            var before := Disk(true, map[0 := [1]], Some(Manifest(1, 3, Some(1), [Record(0, Digest([1]), 1, 0)])));
            var works, fails := Works(0, Choice(true, false, "", [])), Works(0, Choice(false, false, "", []));
            Run(job, before, [works, Meets, fails, Meets, works]).disk.files == map[0 := [2]]
  {
    var job := [Participant(7, Some(1), 0, [2])];
    var before := Disk(true, map[0 := [1]], Some(Manifest(1, 3, Some(1), [Record(0, Digest([1]), 1, 0)])));
    var works, fails := Works(0, Choice(true, false, "", [])), Works(0, Choice(false, false, "", []));
    var all := [works, Meets, fails, Meets, works];
    assert all[..4] == [works, Meets, fails, Meets] && all[..4][..3] == [works, Meets, fails];
    assert all[..4][..3][..2] == [works, Meets] && all[..4][..3][..2][..1] == [works] && [works][..0] == [];
    var s0 := Started(job, before);
    var s1 := Work(s0, job, 0, works.choice);
    assert Run(job, before, [works]) == s1;
    var s2 := Meet(s1, job);
    assert Run(job, before, [works, Meets]) == s2;
    var s3 := Work(s2, job, 0, fails.choice);
    assert Run(job, before, [works, Meets, fails]) == s3;
    var s4 := Meet(s3, job);
    assert Run(job, before, [works, Meets, fails, Meets]) == s4;
    assert s2.ranks[0].phase == Creating && s4.ranks[0].phase == Saving;
  }
}
