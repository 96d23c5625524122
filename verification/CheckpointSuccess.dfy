/** How a save ends: it returns everywhere exactly if nothing went wrong on the way, and raises where it did; and what
    it has then written. */
module CheckpointSuccess {
  import opened Wrappers
  import opened CheckpointSpec
  import opened CheckpointTheorems

  // ----- what happened on the way

  /** A rank did the work of a phase. */
  datatype Deed = Deed(rank: nat, phase: Phase, choice: Choice)

  predicate CanWork(ranks: seq<Rank>, me: nat) {
    me < |ranks| && !ranks[me].arrived && ranks[me].ended.None?
  }

  function DeedOf(s: State, event: Event): seq<Deed> {
    if event.Works? && CanWork(s.ranks, event.rank) then [Deed(event.rank, s.ranks[event.rank].phase, event.choice)] else []
  }

  function Deeds(job: seq<Participant>, before: Disk, events: seq<Event>): seq<Deed> {
    if events == [] then []
    else
      var front := events[..|events| - 1];
      Deeds(job, before, front) + DeedOf(Run(job, before, front), events[|events| - 1])
  }

  function Sizes(job: seq<Participant>): seq<nat> {
    seq(|job|, k requires 0 <= k < |job| => |job[k].content|)
  }

  predicate SameAs(job: seq<Participant>, p: Participant) {
    forall k :: 0 <= k < |job| ==> job[k].identity == p.identity && job[k].step == p.step
  }

  /** What goes wrong in a deed, by the phase whose collective reports it. A mkdir that fails without a text is
      found out only by the last phase. */
  function Flaw(job: seq<Participant>, before: Disk, deed: Deed): Option<Phase>
    requires deed.rank < |job|
  {
    var (p, choice) := (job[deed.rank], deed.choice);
    match deed.phase
    case Preparing => if choice.ok && p.step >= 0 && p.identity.Some? then None else Some(Preparing)
    case Creating =>
      if deed.rank != 0 || (choice.ok && !before.dir) then None
      else if choice.ok || choice.message != "" then Some(Creating) else Some(Publishing)
    case Saving => if choice.ok then None else Some(Saving)
    case Publishing =>
      if SameAs(job, p) && (deed.rank == 0 ==> choice.ok && choice.seen == Sizes(job)) then None else Some(Publishing)
  }

  predicate AreRanks(deeds: seq<Deed>, world: nat) {
    forall d :: d in deeds ==> d.rank < world
  }

  ghost predicate Flawed(job: seq<Participant>, before: Disk, deeds: seq<Deed>, at: Phase) {
    exists d :: d in deeds && d.rank < |job| && Flaw(job, before, d) == Some(at)
  }

  lemma FlawedBy(job: seq<Participant>, before: Disk, deeds: seq<Deed>, d: Deed, at: Phase)
    requires d.rank < |job|
    ensures Flawed(job, before, deeds + [d], at) <==> Flawed(job, before, deeds, at) || Flaw(job, before, d) == Some(at)
  {
    hide Flaw;
    if Flawed(job, before, deeds, at) {
      var e :| e in deeds && e.rank < |job| && Flaw(job, before, e) == Some(at);
      assert e in deeds + [d];
    }
    if Flaw(job, before, d) == Some(at) {
      assert d in deeds + [d];
    }
  }

  // ----- what a rank knows of it

  predicate Spoken(rank: Rank) {
    rank.error.Some? && rank.error.value != ""
  }

  predicate Heard(ranks: seq<Rank>) {
    exists k :: 0 <= k < |ranks| && ranks[k].arrived && Spoken(ranks[k])
  }

  /** `here` and `late`: whether something went wrong that this phase, or only the last one, reports. */
  predicate Knows(rank: Rank, me: nat, here: bool, late: bool) {
    && (Spoken(rank) ==> here)
    && (me == 0 && !rank.phase.Publishing? && !here ==> (rank.error.Some? <==> late))
    && (rank.phase.Publishing? ==>
          && |rank.results| > 0
          && (forall k :: 0 < k < |rank.results| ==> rank.results[k].record.Some?)
          && (rank.results[0].record.None? ==> late)
          && (me == 0 && rank.arrived && rank.results[0].record.None? ==> rank.error == Some(RANK_ERROR)))
  }

  predicate AllKnow(ranks: seq<Rank>, here: bool, late: bool) {
    forall k :: 0 <= k < |ranks| ==> Knows(ranks[k], k, here, late)
  }

  /** Until the end, what went wrong in this phase is known to a rank, and nothing went wrong that an earlier one
      should have reported. */
  ghost predicate GoingOn(ranks: seq<Rank>, job: seq<Participant>, before: Disk, deeds: seq<Deed>)
    requires ranks != []
  {
    var phase := ranks[0].phase;
    var (here, late) := (Flawed(job, before, deeds, phase), Flawed(job, before, deeds, Publishing));
    && AllKnow(ranks, here, late)
    && (here ==> Heard(ranks) || (phase.Publishing? && ranks[0].results != [] && ranks[0].results[0].record.None?))
    && forall at :: Flawed(job, before, deeds, at) ==> at == phase || at == Publishing
  }

  /** A save that went wrong nowhere has returned, any other has raised at the first phase to report it. */
  ghost predicate Ended(outcome: Outcome, job: seq<Participant>, before: Disk, deeds: seq<Deed>) {
    match outcome
    case Returned => forall at :: !Flawed(job, before, deeds, at)
    case Raised(at) =>
      Flawed(job, before, deeds, at) && forall other :: Flawed(job, before, deeds, other) ==> other == at || other == Publishing
  }

  ghost predicate Explained(s: State, job: seq<Participant>, before: Disk, deeds: seq<Deed>)
    requires s.ranks != []
  {
    match s.ranks[0].ended
    case None => GoingOn(s.ranks, job, before, deeds)
    case Some(outcome) => Ended(outcome, job, before, deeds)
  }

  // ----- a rank's own work

  lemma AgreedIff(results: seq<Gathered>, job: seq<Participant>, files: map<nat, seq<nat>>, p: Participant)
    requires Held(results, job, files)
    ensures Agreed(results, p) <==> SameAs(job, p)
  {
    if SameAs(job, p) {
      forall k | 0 <= k < |results| ensures results[k].identity == p.identity && results[k].step == p.step {
        assert job[k].identity == p.identity;
      }
    }
    if Agreed(results, p) {
      forall k | 0 <= k < |job| ensures job[k].identity == p.identity && job[k].step == p.step {
        assert results[k].identity == p.identity;
      }
    }
  }

  lemma VisibleIff(results: seq<Gathered>, job: seq<Participant>, files: map<nat, seq<nat>>, seen: seq<nat>)
    requires Held(results, job, files)
    ensures AllVisible(results, seen) <==>
              seen == Sizes(job) && forall k :: 0 <= k < |results| ==> results[k].record.Some?
  {
    if AllVisible(results, seen) {
      forall k | 0 <= k < |job| ensures seen[k] == Sizes(job)[k] {
        assert results[k].record.Some? && seen[k] == results[k].record.value.bytes;
      }
    }
  }

  /** A rank's error after its work. */
  lemma WorkedError(job: seq<Participant>, before: Disk, me: nat, rank: Rank, disk: Disk, choice: Choice, here: bool, late: bool)
    requires me < |job| && !rank.arrived && RankFits(rank, job[me], me, disk.files)
    requires rank.phase.Publishing? ==> Held(rank.results, job, disk.files)
    requires me == 0 && rank.phase.Creating? ==> disk.dir == before.dir
    requires Knows(rank, me, here, late)
    ensures var after := Worked(job[me], me, rank, disk, choice).0;
            var flaw := Flaw(job, before, Deed(me, rank.phase, choice));
            && (Spoken(after) <==>
                  flaw == Some(rank.phase) || (me == 0 && rank.phase.Publishing? && rank.results[0].record.None?))
            && (me == 0 && !rank.phase.Publishing? && !here && flaw != Some(rank.phase) ==>
                  (after.error.Some? <==> late || flaw == Some(Publishing)))
            && (Spoken(after) && rank.phase.Publishing? ==> after.error == Some(RANK_ERROR))
  {
    hide CanWork, Recorded, Held, SameAs, AllVisible, Agreed, Sizes;
    if rank.phase.Publishing? {
      AgreedIff(rank.results, job, disk.files, job[me]);
      VisibleIff(rank.results, job, disk.files, choice.seen);
    }
  }

  lemma OthersKnow(rank: Rank, me: nat, here: bool, late: bool, hereNow: bool, lateNow: bool)
    requires Knows(rank, me, here, late) && (here ==> hereNow) && (late ==> lateNow)
    requires me == 0 && !rank.phase.Publishing? && !hereNow ==> late == lateNow
    ensures Knows(rank, me, hereNow, lateNow)
  {
  }

  /** Only rank 0 can hide what went wrong from its phase. */
  lemma FlawLater(job: seq<Participant>, before: Disk, deed: Deed)
    requires deed.rank < |job|
    ensures var flaw := Flaw(job, before, deed);
            flaw.Some? ==> flaw.value == deed.phase || (flaw.value == Publishing && deed.rank == 0)
  {
    hide SameAs, Sizes;
  }

  lemma WorkerKnows(s: State, job: seq<Participant>, before: Disk, me: nat, choice: Choice, here: bool, late: bool)
    requires |s.ranks| == |job| && me < |job| && Sound(s, job, before) && CanWork(s.ranks, me)
    requires Knows(s.ranks[me], me, here, late) && (s.ranks[me].phase.Publishing? ==> here == late)
    ensures var after := Called(Worked(job[me], me, s.ranks[me], s.disk, choice).0);
            var flaw := Flaw(job, before, Deed(me, s.ranks[me].phase, choice));
            && Knows(after, me, here || flaw == Some(after.phase), late || flaw == Some(Publishing))
            && (flaw == Some(after.phase) ==> Spoken(after))
  {
    hide Worked, Flaw, Lockstep, AllFit, AllHeld, NewUnless, PublishedOnlyComplete, Unpublished, PublishedIfClean, PhaseOf, EndOf, RankFits, Held;
    var rank := s.ranks[me];
    PhaseAt(s.ranks, me);
    FitAt(s.ranks, job, s.disk.files, me);
    HeldAt(s, job, before, me);
    NewAt(s, job, before);
    WorkedKeeps(job[me], me, rank, s.disk, choice);
    WorkedError(job, before, me, rank, s.disk, choice, here, late);
    FlawLater(job, before, Deed(me, rank.phase, choice));
  }

  lemma HeldAt(s: State, job: seq<Participant>, before: Disk, me: nat)
    requires |s.ranks| == |job| && me < |job| && Sound(s, job, before)
    ensures s.ranks[me].phase.Publishing? ==> Held(s.ranks[me].results, job, s.disk.files)
  {
    hide Held, AllFit, NewUnless, PublishedOnlyComplete, Unpublished, PublishedIfClean;
    PhaseAt(s.ranks, me);
  }

  lemma NewAt(s: State, job: seq<Participant>, before: Disk)
    requires |s.ranks| == |job| > 0 && Sound(s, job, before)
    ensures s.ranks[0].phase.Creating? && !s.ranks[0].arrived ==> s.disk.dir == before.dir
  {
    hide AllFit, AllHeld, PublishedOnlyComplete, Unpublished, PublishedIfClean;
  }

  lemma StillHeard(ranks: seq<Rank>, me: nat, after: Rank)
    requires me < |ranks| && Heard(ranks) && !ranks[me].arrived
    ensures Heard(ranks[me := after])
  {
    hide Spoken;
    var k :| 0 <= k < |ranks| && ranks[k].arrived && Spoken(ranks[k]);
    assert ranks[me := after][k] == ranks[k];
  }

  lemma NowHeard(ranks: seq<Rank>, me: nat, after: Rank)
    requires me < |ranks| && after.arrived && Spoken(after)
    ensures Heard(ranks[me := after])
  {
    hide Spoken;
    assert ranks[me := after][me] == after;
  }

  lemma WorkGoesOn(s: State, job: seq<Participant>, before: Disk, me: nat, choice: Choice, deeds: seq<Deed>)
    requires |s.ranks| == |job| && me < |job| && Sound(s, job, before) && CanWork(s.ranks, me)
    requires GoingOn(s.ranks, job, before, deeds)
    ensures GoingOn(Work(s, job, me, choice).ranks, job, before, deeds + [Deed(me, s.ranks[me].phase, choice)])
  {
    hide Worked, Flaw, Flawed, Spoken, Heard, Sound, Knows;
    var rank, d := s.ranks[me], Deed(me, s.ranks[me].phase, choice);
    var after := Called(Worked(job[me], me, rank, s.disk, choice).0);
    var ranks := s.ranks[me := after];
    assert Work(s, job, me, choice).ranks == ranks;
    SoundPhase(s, job, before, me);
    var phase := rank.phase;
    FlawedBy(job, before, deeds, d, phase);
    FlawedBy(job, before, deeds, d, Publishing);
    FlawLater(job, before, d);
    var (here, late) := (Flawed(job, before, deeds, phase), Flawed(job, before, deeds, Publishing));
    var (hereNow, lateNow) := (Flawed(job, before, deeds + [d], phase), Flawed(job, before, deeds + [d], Publishing));
    WorkedKeeps(job[me], me, rank, s.disk, choice);
    WorkerKnows(s, job, before, me, choice, here, late);
    forall k | 0 <= k < |ranks| ensures Knows(ranks[k], k, hereNow, lateNow) {
      if k != me {
        SoundPhase(s, job, before, k);
        OthersKnow(s.ranks[k], k, here, late, hereNow, lateNow);
      }
    }
    forall at ensures Flawed(job, before, deeds + [d], at) ==> at == phase || at == Publishing {
      FlawedBy(job, before, deeds, d, at);
    }
    if Flaw(job, before, d) == Some(phase) {
      NowHeard(s.ranks, me, after);
    } else if Heard(s.ranks) {
      StillHeard(s.ranks, me, after);
    }
  }

  lemma SoundPhase(s: State, job: seq<Participant>, before: Disk, me: nat)
    requires |s.ranks| == |job| && me < |job| && Sound(s, job, before)
    ensures s.ranks[me].phase == s.ranks[0].phase && s.ranks[me].ended == s.ranks[0].ended
  {
    hide AllFit, AllHeld, NewUnless, PublishedOnlyComplete, Unpublished, PublishedIfClean, InStep;
    PhaseAt(s.ranks, me);
    PhaseAt(s.ranks, 0);
  }

  // ----- a collective

  lemma ReportedIff(ranks: seq<Rank>, job: seq<Participant>)
    requires |ranks| == |job| && AllMet(ranks)
    ensures Reported(Gather(ranks, job)) <==> Heard(ranks)
  {
    var results := Gather(ranks, job);
    if Heard(ranks) {
      var k :| 0 <= k < |ranks| && ranks[k].arrived && Spoken(ranks[k]);
      assert results[k].error == ranks[k].error;
    }
    if Reported(results) {
      var k :| 0 <= k < |results| && results[k].error.Some? && results[k].error.value != "";
      assert ranks[k].arrived && Spoken(ranks[k]);
    }
  }

  /** A rank that was released without a report. */
  lemma ReleasedKnows(rank: Rank, p: Participant, me: nat, files: map<nat, seq<nat>>, results: seq<Gathered>, late: bool, lateNow: bool)
    requires RankFits(rank, p, me, files) && rank.arrived && Knows(rank, me, false, late) && !Reported(results)
    requires lateNow == late && !rank.phase.Publishing?
    requires rank.phase.Saving? ==> |results| > 0 && forall k :: 0 < k < |results| ==> results[k].record.Some?
    requires rank.phase.Saving? && results[0].record.None? ==> late
    ensures var after := Released(rank, results);
            Knows(after, me, after.phase.Publishing? && lateNow, lateNow)
  {
    hide Reported, Recorded;
  }

  /** A silent rank that saved has a record, unless it is rank 0 and mkdir had failed. */
  lemma SilentRecord(rank: Rank, p: Participant, me: nat, files: map<nat, seq<nat>>, late: bool)
    requires RankFits(rank, p, me, files) && rank.phase.Saving? && rank.arrived && Knows(rank, me, false, late)
    ensures rank.record.None? <==> me == 0 && late
  {
  }

  lemma SavedRecords(ranks: seq<Rank>, job: seq<Participant>, files: map<nat, seq<nat>>, late: bool)
    requires AllFit(ranks, job, files) && AllMet(ranks) && AllKnow(ranks, false, late)
    requires forall k :: 0 <= k < |ranks| ==> ranks[k].phase.Saving?
    ensures forall k :: 0 <= k < |ranks| ==> (Gather(ranks, job)[k].record.None? <==> k == 0 && late)
  {
    hide RankFits, Knows;
    forall k | 0 <= k < |ranks| ensures Gather(ranks, job)[k].record.None? <==> k == 0 && late {
      FitAt(ranks, job, files, k);
      SilentRecord(ranks[k], job[k], k, files, late);
    }
  }

  lemma MetPhase(rank: Rank, results: seq<Gathered>)
    requires rank.ended.None?
    ensures Reported(results) ==> Released(rank, results).ended == Some(Raised(rank.phase))
    ensures !Reported(results) ==>
              Released(rank, results).ended == if rank.phase.Publishing? then Some(Returned) else None
    ensures !Reported(results) && !rank.phase.Publishing? ==>
              var after := Released(rank, results);
              && after.phase != rank.phase
              && (after.phase.Publishing? ==> rank.phase.Saving? && after.results == results)
  {
    hide Reported;
  }

  /** A collective of the first three phases without a report. */
  lemma MetGoesOnWith(s: State, job: seq<Participant>, before: Disk, deeds: seq<Deed>)
    requires |s.ranks| == |job| > 0 && Sound(s, job, before) && AllMet(s.ranks) && GoingOn(s.ranks, job, before, deeds)
    requires !Reported(Gather(s.ranks, job)) && !s.ranks[0].phase.Publishing?
    requires !Flawed(job, before, deeds, s.ranks[0].phase)
    ensures GoingOn(Meet(s, job).ranks, job, before, deeds)
  {
    hide Flawed, Knows, RankFits, Lockstep, AllHeld, NewUnless, PublishedOnlyComplete, Unpublished, PublishedIfClean, Reported, Released, Heard, InStep;
    var results, ranks := Gather(s.ranks, job), Meet(s, job).ranks;
    var late := Flawed(job, before, deeds, Publishing);
    forall k | 0 <= k < |s.ranks| ensures s.ranks[k].phase == s.ranks[0].phase {
      SoundPhase(s, job, before, k);
    }
    if s.ranks[0].phase.Saving? {
      SavedRecords(s.ranks, job, s.disk.files, late);
    }
    assert ranks[0] == Released(s.ranks[0], results);
    MetPhase(s.ranks[0], results);
    var here := Flawed(job, before, deeds, ranks[0].phase);
    forall k | 0 <= k < |ranks| ensures Knows(ranks[k], k, here, late) {
      MetPhase(s.ranks[k], results);
      FitAt(s.ranks, job, s.disk.files, k);
      SamePhase(s.ranks[0], s.ranks[k], results);
      ReleasedKnows(s.ranks[k], job[k], k, s.disk.files, results, late, late);
    }
    assert here ==> ranks[0].phase.Publishing? && ranks[0].results == results;
    assert here ==> s.ranks[0].phase.Saving? && results[0].record.None?;
  }

  lemma SamePhase(rank: Rank, other: Rank, results: seq<Gathered>)
    requires rank.phase == other.phase
    ensures Released(rank, results).phase == Released(other, results).phase
  {
    hide Reported;
  }

  lemma HereIsHeard(ranks: seq<Rank>, job: seq<Participant>, before: Disk, deeds: seq<Deed>)
    requires ranks != [] && AllMet(ranks) && GoingOn(ranks, job, before, deeds)
    ensures Heard(ranks) <==> Flawed(job, before, deeds, ranks[0].phase)
    requires forall k :: 0 <= k < |ranks| ==> ranks[k].phase == ranks[0].phase
  {
    hide Flawed;
    assert Knows(ranks[0], 0, Flawed(job, before, deeds, ranks[0].phase), Flawed(job, before, deeds, Publishing));
    if ranks[0].phase.Publishing? && ranks[0].results[0].record.None? {
      assert Spoken(ranks[0]) && Heard(ranks);
    }
    if Heard(ranks) {
      var k :| 0 <= k < |ranks| && ranks[k].arrived && Spoken(ranks[k]);
      assert Knows(ranks[k], k, Flawed(job, before, deeds, ranks[0].phase), Flawed(job, before, deeds, Publishing));
    }
  }

  lemma MeetExplained(s: State, job: seq<Participant>, before: Disk, deeds: seq<Deed>)
    requires |s.ranks| == |job| > 0 && Sound(s, job, before) && Explained(s, job, before, deeds)
    ensures Explained(Meet(s, job), job, before, deeds)
  {
    hide Sound, Flawed, AllKnow, Reported, Heard, Released;
    if AllMet(s.ranks) {
      var results := Gather(s.ranks, job);
      assert Meet(s, job).ranks[0] == Released(s.ranks[0], results);
      MetPhase(s.ranks[0], results);
      ReportedIff(s.ranks, job);
      forall k | 0 <= k < |s.ranks| ensures s.ranks[k].phase == s.ranks[0].phase {
        SoundPhase(s, job, before, k);
      }
      HereIsHeard(s.ranks, job, before, deeds);
      if !Reported(results) && !s.ranks[0].phase.Publishing? {
        MetGoesOnWith(s, job, before, deeds);
      }
    }
  }

  lemma WorkExplained(s: State, job: seq<Participant>, before: Disk, me: nat, choice: Choice, deeds: seq<Deed>)
    requires |s.ranks| == |job| > 0 && Sound(s, job, before) && Explained(s, job, before, deeds)
    ensures Explained(Work(s, job, me, choice), job, before, deeds + DeedOf(s, Works(me, choice)))
  {
    hide Sound, GoingOn, Ended, Worked;
    if CanWork(s.ranks, me) {
      SoundPhase(s, job, before, me);
      WorkedKeeps(job[me], me, s.ranks[me], s.disk, choice);
      WorkGoesOn(s, job, before, me, choice, deeds);
    } else {
      assert deeds + [] == deeds;
    }
  }

  lemma StartedExplained(job: seq<Participant>, before: Disk)
    requires job != []
    ensures Explained(Started(job, before), job, before, [])
  {
  }

  lemma {:induction false} RunExplained(job: seq<Participant>, before: Disk, events: seq<Event>)
    requires job != []
    ensures Explained(Run(job, before, events), job, before, Deeds(job, before, events))
  {
    hide Sound, Explained, Work, Meet, Started;
    if events == [] {
      StartedExplained(job, before);
    } else {
      var front := events[..|events| - 1];
      var s := Run(job, before, front);
      RunExplained(job, before, front);
      RunSound(job, before, front);
      match events[|events| - 1]
      case Works(me, choice) => WorkExplained(s, job, before, me, choice, Deeds(job, before, front));
      case Meets =>
        assert Deeds(job, before, front) + [] == Deeds(job, before, front);
        MeetExplained(s, job, before, Deeds(job, before, front));
    }
  }

  // ----- how a save ends

  /** A save that has ended returned on every rank exactly if nothing went wrong; otherwise every rank raised, at a
      phase to which something that went wrong belongs, and whatever else went wrong belongs to that phase or is
      known in the last. */
  lemma EndsAsItWent(job: seq<Participant>, before: Disk, events: seq<Event>, r: nat)
    requires r < |job| && Run(job, before, events).ranks[r].ended.Some?
    ensures var (ended, deeds) := (Run(job, before, events).ranks[r].ended.value, Deeds(job, before, events));
            && (ended == Returned <==> forall at :: !Flawed(job, before, deeds, at))
            && (ended.Raised? ==> Flawed(job, before, deeds, ended.at))
            && (ended.Raised? ==> forall at :: Flawed(job, before, deeds, at) ==> at == ended.at || at == Publishing)
  {
    hide Run, Deeds, Flawed, Sound, GoingOn;
    RunExplained(job, before, events);
    RunSound(job, before, events);
    SoundPhase(Run(job, before, events), job, before, r);
  }

  // ----- every save ends

  predicate TriesToWork(events: seq<Event>, me: nat) {
    exists e :: e in events && e.Works? && e.rank == me
  }

  predicate AllWork(world: nat, events: seq<Event>) {
    forall k :: 0 <= k < world ==> TriesToWork(events, k)
  }

  /** How many collectives are behind all ranks. */
  function Level(s: State): nat {
    if s.ranks == [] || s.ranks[0].ended.Some? then 4
    else match s.ranks[0].phase
      case Preparing => 0
      case Creating => 1
      case Saving => 2
      case Publishing => 3
  }

  lemma LevelRises(s: State, job: seq<Participant>, event: Event)
    requires |s.ranks| == |job|
    ensures Level(Next(s, job, event)) >= Level(s)
    ensures event.Works? ==> Level(Next(s, job, event)) == Level(s)
    ensures event.Meets? && AllMet(s.ranks) && s.ranks != [] ==> Level(Next(s, job, event)) > Level(s)
  {
    hide Worked, Reported;
    match event
    case Works(me, choice) =>
      if me < |job| {
        WorkedKeeps(job[me], me, s.ranks[me], s.disk, choice);
      }
    case Meets =>
      if AllMet(s.ranks) && s.ranks != [] {
        assert Meet(s, job).ranks[0] == Released(s.ranks[0], Gather(s.ranks, job));
      }
  }

  lemma StaysArrived(s: State, job: seq<Participant>, event: Event, k: nat)
    requires |s.ranks| == |job| && k < |job|
    ensures s.ranks[k].arrived && Level(Next(s, job, event)) == Level(s) ==> Next(s, job, event).ranks[k].arrived
    ensures event.Works? && event.rank == k && s.ranks[k].ended.None? ==> Next(s, job, event).ranks[k].arrived
  {
    hide Worked, Level;
    LevelRises(s, job, event);
  }

  /** Unless a collective intervenes, a rank that worked has arrived. */
  lemma {:induction false} WorkedArrived(job: seq<Participant>, before: Disk, events: seq<Event>, more: seq<Event>, k: nat)
    requires k < |job|
    ensures Level(Run(job, before, events + more)) >= Level(Run(job, before, events))
    ensures TriesToWork(more, k)
              && Level(Run(job, before, events + more)) == Level(Run(job, before, events)) < 4
            ==> Run(job, before, events + more).ranks[k].arrived
    decreases |more|
  {
    hide Run, Level, Next, Sound;
    if more == [] {
      assert events + more == events;
    } else {
      var front, last := more[..|more| - 1], more[|more| - 1];
      WorkedArrived(job, before, events, front, k);
      assert events + more == (events + front) + [last];
      RunNext(job, before, events + front, last);
      var s := Run(job, before, events + front);
      LevelRises(s, job, last);
      StaysArrived(s, job, last, k);
      RunSound(job, before, events + front);
      SoundPhase(s, job, before, k);
      LevelOpen(s);
    }
  }

  lemma LevelOpen(s: State)
    requires s.ranks != []
    ensures Level(s) < 4 <==> s.ranks[0].ended.None?
    ensures Level(s) <= 4
  {
  }

  /** Once every rank has worked, a collective gets all of them on. */
  lemma RoundRises(job: seq<Participant>, before: Disk, events: seq<Event>, round: seq<Event>)
    requires job != [] && AllWork(|job|, round)
    ensures Level(Run(job, before, events + round + [Meets])) > Level(Run(job, before, events))
            || Level(Run(job, before, events + round + [Meets])) == 4
  {
    hide Run, Level, Sound, Meet, Work;
    var s := Run(job, before, events + round);
    WorkedArrived(job, before, events, round, 0);
    RunNext(job, before, events + round, Meets);
    LevelRises(s, job, Meets);
    LevelOpen(s);
    LevelOpen(Next(s, job, Meets));
    RunSound(job, before, events + round);
    if Level(s) == Level(Run(job, before, events)) < 4 {
      forall k | 0 <= k < |job| ensures s.ranks[k].arrived && s.ranks[k].ended.None? {
        WorkedArrived(job, before, events, round, k);
        SoundPhase(s, job, before, k);
      }
    }
  }

  /** Four times every rank works and all meet, in whatever order and whatever happens in between: then the save
      has ended on every rank. */
  lemma FourRoundsEnd(job: seq<Participant>, before: Disk, a: seq<Event>, b: seq<Event>, c: seq<Event>, d: seq<Event>, r: nat)
    requires r < |job| && AllWork(|job|, a) && AllWork(|job|, b) && AllWork(|job|, c) && AllWork(|job|, d)
    ensures var events := a + [Meets] + b + [Meets] + c + [Meets] + d + [Meets];
            Run(job, before, events).ranks[r].ended.Some?
  {
    hide Run, Level, AllWork, Sound;
    var one := a + [Meets];
    var two := one + b + [Meets];
    var three := two + c + [Meets];
    var four := three + d + [Meets];
    assert [] + a + [Meets] == one;
    RoundRises(job, before, [], a);
    RoundRises(job, before, one, b);
    RoundRises(job, before, two, c);
    RoundRises(job, before, three, d);
    WorkedArrived(job, before, one, b + [Meets], 0);
    assert one + (b + [Meets]) == two;
    WorkedArrived(job, before, two, c + [Meets], 0);
    assert two + (c + [Meets]) == three;
    WorkedArrived(job, before, three, d + [Meets], 0);
    assert three + (d + [Meets]) == four;
    LevelOpen(Run(job, before, four));
    RunSound(job, before, four);
    SoundPhase(Run(job, before, four), job, before, r);
  }

  // ----- a save in which nothing fails

  /** A new directory, and valid ranks that agree on the step and the identity. */
  predicate Ready(job: seq<Participant>, before: Disk) {
    job != [] && !before.dir && job[0].step >= 0 && job[0].identity.Some? && SameAs(job, job[0])
  }

  predicate NothingFails(job: seq<Participant>, events: seq<Event>) {
    forall e :: e in events && e.Works? ==> e.choice.ok && (e.rank == 0 ==> e.choice.seen == Sizes(job))
  }

  lemma {:induction false} DeedsAre(job: seq<Participant>, before: Disk, events: seq<Event>)
    requires NothingFails(job, events)
    ensures forall d :: d in Deeds(job, before, events) ==>
              d.rank < |job| && d.choice.ok && (d.rank == 0 ==> d.choice.seen == Sizes(job))
  {
    hide Run, Sizes;
    if events != [] {
      DeedsAre(job, before, events[..|events| - 1]);
      assert events[|events| - 1] in events;
    }
  }

  lemma ReadyIsFlawless(job: seq<Participant>, before: Disk, d: Deed)
    requires Ready(job, before) && d.rank < |job| && d.choice.ok && (d.rank == 0 ==> d.choice.seen == Sizes(job))
    ensures Flaw(job, before, d).None?
  {
    hide Sizes;
    assert job[d.rank].identity == job[0].identity && job[d.rank].step == job[0].step;
    forall k | 0 <= k < |job| ensures job[k].identity == job[d.rank].identity && job[k].step == job[d.rank].step {
      assert job[k].identity == job[0].identity && job[k].step == job[0].step;
    }
  }

  /** It never raises, and after four rounds it has returned on every rank and published the job's manifest. */
  lemma CleanSaveReturns(job: seq<Participant>, before: Disk, a: seq<Event>, b: seq<Event>, c: seq<Event>, d: seq<Event>, r: nat)
    requires r < |job| && Ready(job, before)
    requires AllWork(|job|, a) && AllWork(|job|, b) && AllWork(|job|, c) && AllWork(|job|, d)
    requires NothingFails(job, a) && NothingFails(job, b) && NothingFails(job, c) && NothingFails(job, d)
    ensures var s := Run(job, before, a + [Meets] + b + [Meets] + c + [Meets] + d + [Meets]);
            && s.ranks[r].ended == Some(Returned)
            && s.disk.manifest.Some? && CompleteFor(s.disk.manifest.value, job, s.disk.files)
  {
    hide Run, AllWork, Flaw, Deeds, CompleteFor, Ready;
    var events := a + [Meets] + b + [Meets] + c + [Meets] + d + [Meets];
    FourRoundsEnd(job, before, a, b, c, d, r);
    CleanNeverRaises(job, before, events, r);
    ReturnMeansPublished(job, before, events, r);
  }

  lemma CleanNeverRaises(job: seq<Participant>, before: Disk, events: seq<Event>, r: nat)
    requires r < |job| && Ready(job, before) && NothingFails(job, events)
    ensures var ended := Run(job, before, events).ranks[r].ended; ended.Some? ==> ended.value == Returned
  {
    hide Run, Flaw, Deeds, Ready;
    var deeds := Deeds(job, before, events);
    DeedsAre(job, before, events);
    forall at ensures !Flawed(job, before, deeds, at) {
      forall d | d in deeds && d.rank < |job| ensures Flaw(job, before, d).None? {
        ReadyIsFlawless(job, before, d);
      }
    }
    if Run(job, before, events).ranks[r].ended.Some? {
      EndsAsItWent(job, before, events, r);
    }
  }

  // ----- what a save has written

  predicate Writes(d: Deed, r: nat) {
    d.rank == r && d.phase.Saving? && (d.choice.ok || d.choice.replaced)
  }

  predicate Wrote(deeds: seq<Deed>, r: nat) {
    exists d :: d in deeds && Writes(d, r)
  }

  predicate MadeDirectory(deeds: seq<Deed>) {
    exists d :: d in deeds && d.rank == 0 && d.phase.Creating? && d.choice.ok
  }

  lemma WroteBy(deeds: seq<Deed>, d: Deed, r: nat)
    ensures Wrote(deeds + [d], r) <==> Wrote(deeds, r) || Writes(d, r)
    ensures MadeDirectory(deeds + [d]) <==> MadeDirectory(deeds) || (d.rank == 0 && d.phase.Creating? && d.choice.ok)
  {
    var all := deeds + [d];
    assert all[|deeds|] == d;
    if Wrote(deeds, r) {
      var e :| e in deeds && Writes(e, r);
      assert e in all;
    }
    if MadeDirectory(deeds) {
      var e :| e in deeds && e.rank == 0 && e.phase.Creating? && e.choice.ok;
      assert e in all;
    }
  }

  predicate FileIs(job: seq<Participant>, before: Disk, disk: Disk, deeds: seq<Deed>, r: nat)
    requires r < |job|
  {
    && (r in disk.files <==> r in before.files || Wrote(deeds, r))
    && (r in disk.files ==> disk.files[r] == if Wrote(deeds, r) || r !in before.files then job[r].content else before.files[r])
    && (MadeDirectory(deeds) || Wrote(deeds, r) || before.dir ==> disk.dir)
    && (!before.dir && disk.dir ==> MadeDirectory(deeds) || exists k :: 0 <= k < |job| && Wrote(deeds, k))
  }

  lemma WorkWrites(s: State, job: seq<Participant>, before: Disk, me: nat, choice: Choice, deeds: seq<Deed>, r: nat)
    requires |s.ranks| == |job| && r < |job| && FileIs(job, before, s.disk, deeds, r)
    ensures FileIs(job, before, Work(s, job, me, choice).disk, deeds + DeedOf(s, Works(me, choice)), r)
  {
    hide Writes, Wrote, MadeDirectory, Publish;
    if CanWork(s.ranks, me) {
      var d := Deed(me, s.ranks[me].phase, choice);
      WroteBy(deeds, d, r);
      PublishFiles(job[me], me, s.ranks[me], s.disk, choice);
      DirectoryWrites(deeds, d, |job|);
      WritesWhen(d, r);
    } else {
      assert deeds + [] == deeds;
    }
  }

  lemma WritesWhen(d: Deed, r: nat)
    ensures Writes(d, r) <==> d.rank == r && d.phase.Saving? && (d.choice.ok || d.choice.replaced)
  {
  }

  lemma DirectoryWrites(deeds: seq<Deed>, d: Deed, world: nat)
    requires d.rank < world
    ensures (exists k :: 0 <= k < world && Wrote(deeds + [d], k)) <==>
              (exists k :: 0 <= k < world && Wrote(deeds, k)) || (d.phase.Saving? && (d.choice.ok || d.choice.replaced))
  {
    hide Wrote, MadeDirectory;
    forall k: nat ensures Wrote(deeds + [d], k) <==> Wrote(deeds, k) || Writes(d, k) {
      WroteBy(deeds, d, k);
    }
    if exists k :: 0 <= k < world && Wrote(deeds, k) {
      var k :| 0 <= k < world && Wrote(deeds, k);
      assert Wrote(deeds + [d], k);
    }
    if d.phase.Saving? && (d.choice.ok || d.choice.replaced) {
      assert Wrote(deeds + [d], d.rank);
    }
  }

  /** A rank's file holds what the rank saves exactly from when it was replaced, and is as it was until then; the
      directory is there from the first mkdir or file on. */
  lemma {:induction false} FilesWritten(job: seq<Participant>, before: Disk, events: seq<Event>, r: nat)
    requires r < |job|
    ensures FileIs(job, before, Run(job, before, events).disk, Deeds(job, before, events), r)
  {
    hide FileIs, Work, Meet;
    if events == [] {
      NothingWritten(job, before, r);
    } else {
      var front := events[..|events| - 1];
      var s := Run(job, before, front);
      FilesWritten(job, before, front, r);
      match events[|events| - 1]
      case Works(me, choice) => WorkWrites(s, job, before, me, choice, Deeds(job, before, front), r);
      case Meets =>
        MeetKeepsDisk(s, job);
        assert Deeds(job, before, front) + [] == Deeds(job, before, front);
    }
  }

  lemma NothingWritten(job: seq<Participant>, before: Disk, r: nat)
    requires r < |job|
    ensures FileIs(job, before, before, [], r)
  {
  }

  // ----- when the manifest is there

  /** Rank 0's mkdir failed without a text. */
  predicate HidesMkdir(d: Deed) {
    d.rank == 0 && d.phase.Creating? && !d.choice.ok && d.choice.message == ""
  }

  predicate MkdirHidden(deeds: seq<Deed>) {
    exists d :: d in deeds && HidesMkdir(d)
  }

  /** Rank 0 found all ranks agreed and their files visible, and came to replace the manifest, though what follows may
      have failed. */
  predicate Replaces(job: seq<Participant>, d: Deed) {
    && d.rank == 0 && d.phase.Publishing? && (d.choice.ok || d.choice.replaced) && d.choice.seen == Sizes(job)
  }

  predicate Replaced(job: seq<Participant>, deeds: seq<Deed>) {
    exists d :: d in deeds && Replaces(job, d)
  }

  lemma MkdirBy(deeds: seq<Deed>, d: Deed)
    ensures MkdirHidden(deeds + [d]) <==> MkdirHidden(deeds) || HidesMkdir(d)
  {
    assert (deeds + [d])[|deeds|] == d;
    if MkdirHidden(deeds) {
      var e :| e in deeds && HidesMkdir(e);
      assert e in deeds + [d];
    }
  }

  lemma ReplacedBy(job: seq<Participant>, deeds: seq<Deed>, d: Deed)
    ensures Replaced(job, deeds + [d]) <==> Replaced(job, deeds) || Replaces(job, d)
  {
    hide Sizes;
    assert (deeds + [d])[|deeds|] == d;
    if Replaced(job, deeds) {
      var e :| e in deeds && Replaces(job, e);
      assert e in deeds + [d];
    }
  }

  /** What rank 0 carries of its mkdir. */
  predicate Carries(rank: Rank, hidden: bool) {
    match rank.phase
    case Preparing => !hidden
    case Creating => if rank.arrived then (rank.error == Some("") <==> hidden) else !hidden
    case Saving =>
      && (rank.record.Some? ==> !hidden) && (rank.error == Some("") ==> hidden) && (rank.error.None? ==> !hidden)
      && (!rank.arrived ==> (rank.error == Some("") <==> hidden))
    case Publishing => rank.results != [] && (rank.results[0].record.Some? <==> !hidden)
  }

  lemma WorkCarries(p: Participant, rank: Rank, disk: Disk, choice: Choice, hidden: bool)
    requires RankFits(rank, p, 0, disk.files) && Carries(rank, hidden) && !rank.arrived && rank.ended.None?
    ensures var after := Called(Worked(p, 0, rank, disk, choice).0);
            Carries(after, hidden || HidesMkdir(Deed(0, rank.phase, choice)))
  {
    hide Recorded, Publish;
    WorkedKeeps(p, 0, rank, disk, choice);
  }

  lemma MeetCarries(ranks: seq<Rank>, job: seq<Participant>, files: map<nat, seq<nat>>, hidden: bool)
    requires |ranks| == |job| > 0 && AllMet(ranks) && AllFit(ranks, job, files) && Carries(ranks[0], hidden)
    requires var after := Released(ranks[0], Gather(ranks, job)); after.ended.None?
    ensures Carries(Released(ranks[0], Gather(ranks, job)), hidden)
  {
    hide Recorded;
    var results := Gather(ranks, job);
    FitAt(ranks, job, files, 0);
    assert results[0].record == ranks[0].record && results[0].error == ranks[0].error;
    if !Reported(results) {
      assert !(results[0].error.Some? && results[0].error.value != "");
    }
  }

  /** The manifest is the job's exactly if rank 0 came to replace it, and else as it was. */
  predicate ManifestIs(job: seq<Participant>, before: Disk, disk: Disk, deeds: seq<Deed>)
    requires job != []
  {
    if Replaced(job, deeds) && SameAs(job, job[0]) && !MkdirHidden(deeds) then
      disk.manifest == Some(Manifest(|job|, job[0].step, job[0].identity, Records(job)))
    else disk.manifest == before.manifest
  }

  function Records(job: seq<Participant>): seq<Record> {
    seq(|job|, k requires 0 <= k < |job| => RecordOf(job[k], k))
  }

  /** Only in the last phase, once it has worked, can rank 0 have replaced the manifest. */
  ghost predicate Traced(s: State, job: seq<Participant>, before: Disk, deeds: seq<Deed>)
    requires s.ranks != [] && job != []
  {
    && (s.ranks[0].ended.None? ==> Carries(s.ranks[0], MkdirHidden(deeds)))
    && (Replaced(job, deeds) ==> s.ranks[0].phase.Publishing? && s.ranks[0].arrived)
    && ManifestIs(job, before, s.disk, deeds)
  }

  /** Rank 0's publishing. */
  lemma PublishReplaces(job: seq<Participant>, before: Disk, rank: Rank, disk: Disk, choice: Choice, deeds: seq<Deed>, here: bool)
    requires job != [] && rank.phase.Publishing? && Held(rank.results, job, disk.files)
    requires Knows(rank, 0, here, here) && Carries(rank, MkdirHidden(deeds))
    requires !Replaced(job, deeds) && disk.manifest == before.manifest
    ensures var d := Deed(0, Publishing, choice);
            ManifestIs(job, before, Publish(job[0], 0, rank, disk, choice).1, deeds + [d])
  {
    hide SameAs, Agreed, AllVisible, Sizes, MkdirHidden, Replaced, HidesMkdir, Spoken;
    var d := Deed(0, Publishing, choice);
    MkdirBy(deeds, d);
    NotMkdir(d);
    ReplacedBy(job, deeds, d);
    AgreedIff(rank.results, job, disk.files, job[0]);
    VisibleIff(rank.results, job, disk.files, choice.seen);
    assert (forall k :: 0 <= k < |rank.results| ==> rank.results[k].record.Some?) <==> rank.results[0].record.Some?;
    if AllVisible(rank.results, choice.seen) {
      RecordsAre(rank.results, job, disk.files);
    }
  }

  lemma NotMkdir(d: Deed)
    requires !d.phase.Creating? || d.rank != 0
    ensures !HidesMkdir(d)
  {
  }

  lemma NotReplacing(job: seq<Participant>, d: Deed)
    requires !d.phase.Publishing? || d.rank != 0
    ensures !Replaces(job, d)
  {
  }

  lemma RecordsAre(results: seq<Gathered>, job: seq<Participant>, files: map<nat, seq<nat>>)
    requires Held(results, job, files) && forall k :: 0 <= k < |results| ==> results[k].record.Some?
    ensures RecordsOf(results) == Records(job) && |results| == |job|
  {
  }

  lemma WorkTraced(s: State, job: seq<Participant>, before: Disk, me: nat, choice: Choice, deeds: seq<Deed>)
    requires |s.ranks| == |job| > 0 && me < |job| && Sound(s, job, before) && CanWork(s.ranks, me)
    requires GoingOn(s.ranks, job, before, deeds) && Traced(s, job, before, deeds)
    ensures Traced(Work(s, job, me, choice), job, before, deeds + [Deed(me, s.ranks[me].phase, choice)])
  {
    hide Worked, Sound, Flawed, Carries, MkdirHidden, Replaced, HidesMkdir, Replaces, SameAs, RankFits, Held, Knows, Heard, Publish;
    var rank, d := s.ranks[me], Deed(me, s.ranks[me].phase, choice);
    MkdirBy(deeds, d);
    ReplacedBy(job, deeds, d);
    SoundPhase(s, job, before, me);
    OnlyRankZeroPublishes(job[me], me, rank, s.disk, choice);
    WorkedKeeps(job[me], me, rank, s.disk, choice);
    if me != 0 {
      NotMkdir(d);
      NotReplacing(job, d);
    } else {
      SoundFits(s, job, before);
      WorkCarries(job[0], rank, s.disk, choice, MkdirHidden(deeds));
      if rank.phase.Publishing? {
        HeldAt(s, job, before, 0);
        PublishIs(job[0], rank, s.disk, choice);
        PublishReplaces(job, before, rank, s.disk, choice, deeds, Flawed(job, before, deeds, Publishing));
      } else {
        NotReplacing(job, d);
      }
    }
  }

  lemma PublishIs(p: Participant, rank: Rank, disk: Disk, choice: Choice)
    requires rank.phase.Publishing?
    ensures Worked(p, 0, rank, disk, choice) == Publish(p, 0, rank, disk, choice)
  {
    hide Publish;
  }

  lemma SoundFits(s: State, job: seq<Participant>, before: Disk)
    requires |s.ranks| == |job| > 0 && Sound(s, job, before)
    ensures RankFits(s.ranks[0], job[0], 0, s.disk.files) && AllFit(s.ranks, job, s.disk.files)
  {
    hide RankFits, Lockstep, AllHeld, NewUnless, PublishedOnlyComplete, Unpublished, PublishedIfClean;
  }

  lemma MeetTraced(s: State, job: seq<Participant>, before: Disk, deeds: seq<Deed>)
    requires |s.ranks| == |job| > 0 && Sound(s, job, before) && Traced(s, job, before, deeds)
    ensures Traced(Meet(s, job), job, before, deeds)
  {
    hide Sound, Carries, MkdirHidden, Replaced, Released, Reported, SameAs, AllFit;
    if AllMet(s.ranks) {
      var results := Gather(s.ranks, job);
      assert Meet(s, job).ranks[0] == Released(s.ranks[0], results);
      SoundFits(s, job, before);
      if Released(s.ranks[0], results).ended.None? {
        MeetCarries(s.ranks, job, s.disk.files, MkdirHidden(deeds));
      }
      if s.ranks[0].phase.Publishing? {
        StillPublishing(s.ranks[0], results);
      }
    }
  }

  lemma StillPublishing(rank: Rank, results: seq<Gathered>)
    requires rank.phase.Publishing? && rank.arrived
    ensures Released(rank, results).phase.Publishing? && Released(rank, results).arrived
  {
    hide Reported;
  }

  lemma StartedTraced(job: seq<Participant>, before: Disk)
    requires job != []
    ensures Traced(Started(job, before), job, before, [])
  {
  }

  lemma {:induction false} RunTraced(job: seq<Participant>, before: Disk, events: seq<Event>)
    requires job != []
    ensures Traced(Run(job, before, events), job, before, Deeds(job, before, events))
  {
    hide Sound, Traced, GoingOn, Ended, Work, Meet, Started, CanWork;
    if events == [] {
      StartedTraced(job, before);
    } else {
      var front := events[..|events| - 1];
      var s, deeds := Run(job, before, front), Deeds(job, before, front);
      RunTraced(job, before, front);
      RunSound(job, before, front);
      RunExplained(job, before, front);
      assert deeds + [] == deeds;
      match events[|events| - 1]
      case Works(me, choice) =>
        if CanWork(s.ranks, me) {
          WorkerGoesOn(s, job, before, me);
          WorkTraced(s, job, before, me, choice, deeds);
        } else {
          WorkIdle(s, job, me, choice);
        }
      case Meets => MeetTraced(s, job, before, deeds);
    }
  }

  lemma WorkerGoesOn(s: State, job: seq<Participant>, before: Disk, me: nat)
    requires |s.ranks| == |job| && Sound(s, job, before) && CanWork(s.ranks, me)
    ensures s.ranks[0].ended.None? && me < |job|
  {
    hide Sound;
    SoundPhase(s, job, before, me);
  }

  lemma WorkIdle(s: State, job: seq<Participant>, me: nat, choice: Choice)
    requires |s.ranks| == |job| && !CanWork(s.ranks, me)
    ensures Work(s, job, me, choice) == s
  {
    hide Worked;
  }

  /** The manifest is the one of this job, its step, identity and records, exactly from when rank 0 replaced it, having
      found all ranks agreed, every file visible at its size, and its mkdir without a hidden failure; until then it is
      as it was. */
  lemma ManifestWritten(job: seq<Participant>, before: Disk, events: seq<Event>)
    requires job != []
    ensures ManifestIs(job, before, Run(job, before, events).disk, Deeds(job, before, events))
  {
    hide Run, Deeds, ManifestIs, Carries;
    RunTraced(job, before, events);
  }
}
