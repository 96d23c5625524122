/** Loading a checkpoint on every rank (dsv41_train/sft_checkpoint.py, `load_checkpoint`): every rank validates,
    all ranks meet once, and only then does any of them touch its live state. */
module CheckpointLoad {
  import opened Wrappers
  import opened CheckpointSpec
  import T = CheckpointTheorems

  /** A rank's live state holds a payload, or a mixture if restoring failed half way. */
  datatype Live = Whole(content: seq<nat>) | Mixed

  datatype Ending = Restored(step: int) | Refused | Torn

  datatype Loader = Loader(
    identity: nat, schema: nat, live: Live, payload: Option<seq<nat>>, step: int,
    arrived: bool, released: bool, ended: Option<Ending>)

  datatype LoadEvent = Validates(rank: nat, ok: bool) | MeetsOnce | Restores(rank: nat, ok: bool)

  /** What rank `me` of `world` checks on disk before it reads its payload. */
  predicate Checks(disk: Disk, world: nat, me: nat, identity: nat, schema: nat) {
    && disk.manifest.Some?
    && var m := disk.manifest.value;
       && m.world == world == |m.records| && m.identity == Some(identity) && m.step >= 0
       && (forall owner :: 0 <= owner < world ==>
             m.records[owner].file == owner && owner in disk.files && |disk.files[owner]| == m.records[owner].bytes)
       && me < world && m.records[me].schema == schema && Digest(disk.files[me]) == m.records[me].digest
  }

  /** `ok` says whether the payload's tensors, optimizer state, rows and generators passed their own checks. */
  function Validate(l: Loader, disk: Disk, world: nat, me: nat, ok: bool): Loader {
    if l.arrived then l
    else if ok && Checks(disk, world, me, l.identity, l.schema) then
      l.(arrived := true, payload := Some(disk.files[me]), step := disk.manifest.value.step)
    else l.(arrived := true)
  }

  function Restore(l: Loader, ok: bool): Loader {
    if !l.released || l.ended.Some? || l.payload.None? then l
    else if ok then l.(live := Whole(l.payload.value), ended := Some(Restored(l.step)))
    else l.(live := Mixed, ended := Some(Torn))
  }

  predicate AllArrived(ls: seq<Loader>) {
    forall k :: 0 <= k < |ls| ==> ls[k].arrived && !ls[k].released && ls[k].ended.None?
  }

  predicate AllValidated(ls: seq<Loader>) {
    forall k :: 0 <= k < |ls| ==> ls[k].payload.Some?
  }

  function MeetOnce(ls: seq<Loader>): (after: seq<Loader>)
    ensures |after| == |ls|
  {
    if !AllArrived(ls) then ls
    else
      seq(|ls|, k requires 0 <= k < |ls| => if AllValidated(ls) then ls[k].(released := true) else ls[k].(ended := Some(Refused)))
  }

  function LoadNext(ls: seq<Loader>, disk: Disk, event: LoadEvent): (after: seq<Loader>)
    ensures |after| == |ls|
  {
    match event
    case Validates(rank, ok) => if rank < |ls| then ls[rank := Validate(ls[rank], disk, |ls|, rank, ok)] else ls
    case MeetsOnce => MeetOnce(ls)
    case Restores(rank, ok) => if rank < |ls| then ls[rank := Restore(ls[rank], ok)] else ls
  }

  function Load(initial: seq<Loader>, disk: Disk, events: seq<LoadEvent>): (ls: seq<Loader>)
    ensures |ls| == |initial|
  {
    if events == [] then initial else LoadNext(Load(initial, disk, events[..|events| - 1]), disk, events[|events| - 1])
  }

  predicate Untried(l: Loader) {
    !l.arrived && !l.released && l.ended.None? && l.payload.None?
  }

  // ----- what every load keeps

  /** A rank in its place: a payload only after its checks passed, a change of its live state only once released. */
  predicate InPlace(l: Loader, was: Loader, disk: Disk, world: nat, me: nat) {
    && l.identity == was.identity && l.schema == was.schema
    && (l.payload.Some? ==>
          l.arrived && Checks(disk, world, me, l.identity, l.schema)
          && l.payload.value == disk.files[me] && l.step == disk.manifest.value.step)
    && (l.released ==> l.arrived)
    && (l.live == was.live || l.released)
    && (l.ended.Some? && !l.ended.value.Refused? ==> l.released)
    && (l.ended.Some? ==> l.arrived)
    && (l.ended.Some? && l.ended.value.Restored? ==>
          l.payload.Some? && l.live == Whole(l.payload.value) && l.ended.value.step == l.step)
  }

  predicate AllInPlace(ls: seq<Loader>, initial: seq<Loader>, disk: Disk) {
    |ls| == |initial| && forall k :: 0 <= k < |ls| ==> InPlace(ls[k], initial[k], disk, |ls|, k)
  }

  /** Either no rank is released, or all are and every one has validated; refusals concern all ranks at once. */
  predicate Together(ls: seq<Loader>) {
    && (forall j, k :: 0 <= j < |ls| && 0 <= k < |ls| ==> ls[j].released == ls[k].released)
    && (forall j, k :: 0 <= j < |ls| && 0 <= k < |ls| ==> (ls[j].ended == Some(Refused)) == (ls[k].ended == Some(Refused)))
    && (forall k :: 0 <= k < |ls| && ls[k].released ==> ls[k].payload.Some? && ls[k].ended != Some(Refused))
  }

  lemma ValidatedInPlace(l: Loader, was: Loader, disk: Disk, world: nat, me: nat, ok: bool)
    requires InPlace(l, was, disk, world, me)
    ensures InPlace(Validate(l, disk, world, me, ok), was, disk, world, me)
  {
  }

  lemma RestoredInPlace(l: Loader, was: Loader, disk: Disk, world: nat, me: nat, ok: bool)
    requires InPlace(l, was, disk, world, me)
    ensures InPlace(Restore(l, ok), was, disk, world, me)
  {
  }

  lemma MetInPlace(ls: seq<Loader>, initial: seq<Loader>, disk: Disk)
    requires AllInPlace(ls, initial, disk) && Together(ls)
    ensures AllInPlace(MeetOnce(ls), initial, disk) && Together(MeetOnce(ls))
  {
    hide Checks;
  }

  lemma {:induction false} LoadSound(initial: seq<Loader>, disk: Disk, events: seq<LoadEvent>)
    requires forall k :: 0 <= k < |initial| ==> Untried(initial[k])
    ensures AllInPlace(Load(initial, disk, events), initial, disk) && Together(Load(initial, disk, events))
  {
    hide Checks;
    if events != [] {
      var ls := Load(initial, disk, events[..|events| - 1]);
      LoadSound(initial, disk, events[..|events| - 1]);
      match events[|events| - 1]
      case Validates(rank, ok) =>
        if rank < |ls| {
          ValidatedInPlace(ls[rank], initial[rank], disk, |ls|, rank, ok);
        }
      case MeetsOnce => MetInPlace(ls, initial, disk);
      case Restores(rank, ok) =>
        if rank < |ls| {
          RestoredInPlace(ls[rank], initial[rank], disk, |ls|, rank, ok);
        }
    }
  }

  // ----- the promises

  /** No rank mutates its live state unless every rank has validated its own file. */
  lemma MutatesOnlyValidated(initial: seq<Loader>, disk: Disk, events: seq<LoadEvent>, r: nat)
    requires forall k :: 0 <= k < |initial| ==> Untried(initial[k])
    requires r < |initial| && Load(initial, disk, events)[r].live != initial[r].live
    ensures forall k :: 0 <= k < |initial| ==> Checks(disk, |initial|, k, initial[k].identity, initial[k].schema)
  {
    hide Checks;
    LoadSound(initial, disk, events);
    var ls := Load(initial, disk, events);
    assert ls[r].released;
    forall k | 0 <= k < |initial| ensures Checks(disk, |initial|, k, initial[k].identity, initial[k].schema) {
      assert ls[k].released == ls[r].released && InPlace(ls[k], initial[k], disk, |ls|, k);
    }
  }

  /** A single rank that cannot validate keeps all live states as they were, and all ranks raise together. */
  lemma RefusedTogether(initial: seq<Loader>, disk: Disk, events: seq<LoadEvent>, r: nat, k: nat)
    requires forall k :: 0 <= k < |initial| ==> Untried(initial[k])
    requires r < |initial| && k < |initial| && !Checks(disk, |initial|, r, initial[r].identity, initial[r].schema)
    ensures var ls := Load(initial, disk, events);
            && ls[k].live == initial[k].live && (ls[k].ended.Some? ==> ls[k].ended.value == Refused)
            && (ls[k].ended.Some? <==> ls[r].ended.Some?)
  {
    hide Checks;
    LoadSound(initial, disk, events);
    var ls := Load(initial, disk, events);
    assert InPlace(ls[r], initial[r], disk, |ls|, r) && InPlace(ls[k], initial[k], disk, |ls|, k);
    assert ls[k].released == ls[r].released;
  }

  /** The check accepts a complete checkpoint for the same job and no other. */
  lemma ChecksAccept(disk: Disk, job: seq<Participant>, world: nat, me: nat, identity: nat, schema: nat)
    requires disk.manifest.Some? && T.CompleteFor(disk.manifest.value, job, disk.files)
    ensures Checks(disk, world, me, identity, schema) <==>
              world == |job| && me < world && disk.manifest.value.identity == Some(identity) && job[me].schema == schema
  {
    var m := disk.manifest.value;
    forall r | 0 <= r < |job| ensures m.records[r] == RecordOf(job[r], r) && r in disk.files && disk.files[r] == job[r].content {
    }
  }

  /** Save, then load. Once a save returned, a later load restores on each rank exactly what that rank saved,
      and its step, whatever happened to the rank files in between. */
  lemma SaveThenLoad(job: seq<Participant>, before: Disk, saving: seq<Event>, saver: nat,
                     files: map<nat, seq<nat>>, initial: seq<Loader>, loading: seq<LoadEvent>, r: nat)
    requires saver < |job| && Run(job, before, saving).ranks[saver].ended == Some(Returned)
    requires forall k :: 0 <= k < |initial| ==> Untried(initial[k])
    requires r < |initial|
    requires var ls := Load(initial, Run(job, before, saving).disk.(files := files), loading);
             ls[r].ended.Some? && ls[r].ended.value.Restored?
    ensures |initial| == |job|
    ensures var ls := Load(initial, Run(job, before, saving).disk.(files := files), loading);
            ls[r].live == Whole(job[r].content) && ls[r].ended == Some(Restored(job[r].step))
  {
    hide Run, Load;
    T.ReturnMeansPublished(job, before, saving, saver);
    var saved := Run(job, before, saving).disk;
    var disk := saved.(files := files);
    LoadSound(initial, disk, loading);
    var ls := Load(initial, disk, loading);
    assert InPlace(ls[r], initial[r], disk, |ls|, r);
    assert saved.manifest.value.records[r] == RecordOf(job[r], r);
  }

  // ----- how a load ends

  predicate Tries(events: seq<LoadEvent>, r: nat) {
    exists e :: e in events && e.Validates? && e.rank == r
  }

  /** The first attempt of the rank to validate finds its payload in order. */
  predicate FirstIsGood(events: seq<LoadEvent>, r: nat) {
    if events == [] then false
    else if Tries(events[..|events| - 1], r) then FirstIsGood(events[..|events| - 1], r)
    else events[|events| - 1] == Validates(r, true)
  }

  predicate Passes(initial: seq<Loader>, disk: Disk, events: seq<LoadEvent>, r: nat)
    requires r < |initial|
  {
    FirstIsGood(events, r) && Checks(disk, |initial|, r, initial[r].identity, initial[r].schema)
  }

  lemma TriesNext(events: seq<LoadEvent>, r: nat)
    requires events != []
    ensures var last := events[|events| - 1];
            Tries(events, r) <==> Tries(events[..|events| - 1], r) || (last.Validates? && last.rank == r)
  {
    var front, last := events[..|events| - 1], events[|events| - 1];
    assert events == front + [last];
  }

  /** A rank has called once it tried, and holds its payload exactly if its first attempt passed. */
  lemma {:induction false} ArrivedIff(initial: seq<Loader>, disk: Disk, events: seq<LoadEvent>, r: nat)
    requires r < |initial| && Untried(initial[r])
    ensures var l := Load(initial, disk, events)[r];
            && (l.arrived <==> Tries(events, r))
            && (l.payload.Some? <==> Passes(initial, disk, events, r))
            && (FirstIsGood(events, r) ==> Tries(events, r))
            && l.identity == initial[r].identity && l.schema == initial[r].schema
  {
    hide Tries, Checks, AllArrived, AllValidated;
    if events == [] {
      assert !Tries(events, r) by {
        NobodyTries(r);
      }
    } else {
      ArrivedIff(initial, disk, events[..|events| - 1], r);
      TriesNext(events, r);
    }
  }

  lemma NobodyTries(r: nat)
    ensures !Tries([], r)
  {
  }

  /** Once all ranks have tried, the collective decides for all of them; nothing changes that. */
  predicate Decided(ls: seq<Loader>, good: bool) {
    forall k :: 0 <= k < |ls| ==>
      && ls[k].arrived && (good ==> ls[k].released && ls[k].ended != Some(Refused))
      && (!good ==> !ls[k].released && ls[k].ended == Some(Refused))
  }

  lemma DecidedStays(ls: seq<Loader>, disk: Disk, event: LoadEvent, good: bool)
    requires Decided(ls, good)
    ensures Decided(LoadNext(ls, disk, event), good)
    ensures !good ==> LoadNext(ls, disk, event) == ls
  {
    hide Checks, AllValidated;
    if event.MeetsOnce? && ls != [] {
      assert !(ls[0].arrived && !ls[0].released && ls[0].ended.None?);
    }
  }

  lemma {:induction false} DecidedForGood(initial: seq<Loader>, disk: Disk, events: seq<LoadEvent>, more: seq<LoadEvent>, good: bool)
    requires Decided(Load(initial, disk, events), good)
    ensures Decided(Load(initial, disk, events + more), good)
    ensures !good ==> Load(initial, disk, events + more) == Load(initial, disk, events)
    decreases |more|
  {
    hide Decided, LoadNext, Checks;
    if more == [] {
      assert events + more == events;
    } else {
      var front := more[..|more| - 1];
      DecidedForGood(initial, disk, events, front, good);
      assert (events + more)[..|events + more| - 1] == events + front;
      DecidedStays(Load(initial, disk, events + front), disk, more[|more| - 1], good);
    }
  }

  /** Ranks are refused only when one of them, having tried, holds no payload. */
  ghost predicate RefusedForAReason(ls: seq<Loader>) {
    (exists k :: 0 <= k < |ls| && ls[k].ended == Some(Refused)) ==> Lacking(ls)
  }

  ghost predicate Lacking(ls: seq<Loader>) {
    exists k :: 0 <= k < |ls| && ls[k].arrived && ls[k].payload.None?
  }

  lemma StillLacking(ls: seq<Loader>, disk: Disk, event: LoadEvent)
    requires Lacking(ls)
    ensures Lacking(LoadNext(ls, disk, event))
  {
    hide Checks;
    var k :| 0 <= k < |ls| && ls[k].arrived && ls[k].payload.None?;
    assert LoadNext(ls, disk, event)[k].arrived && LoadNext(ls, disk, event)[k].payload.None?;
  }

  lemma StillReasoned(ls: seq<Loader>, disk: Disk, event: LoadEvent)
    requires RefusedForAReason(ls)
    ensures RefusedForAReason(LoadNext(ls, disk, event))
  {
    hide Checks, Lacking;
    var after := LoadNext(ls, disk, event);
    if Lacking(ls) {
      StillLacking(ls, disk, event);
    } else if AllValidated(ls) {
      forall k | 0 <= k < |ls| ensures after[k].ended != Some(Refused) {
      }
    } else if event.MeetsOnce? && AllArrived(ls) {
      NowLacking(ls);
      StillLacking(ls, disk, event);
    }
  }

  lemma NowLacking(ls: seq<Loader>)
    requires AllArrived(ls) && !AllValidated(ls)
    ensures Lacking(ls)
  {
    var k :| 0 <= k < |ls| && ls[k].payload.None?;
    assert ls[k].arrived;
  }

  lemma {:induction false} RefusalsReasoned(initial: seq<Loader>, disk: Disk, events: seq<LoadEvent>)
    requires forall k :: 0 <= k < |initial| ==> Untried(initial[k])
    ensures RefusedForAReason(Load(initial, disk, events))
  {
    hide LoadNext;
    if events != [] {
      RefusalsReasoned(initial, disk, events[..|events| - 1]);
      hide RefusedForAReason;
      StillReasoned(Load(initial, disk, events[..|events| - 1]), disk, events[|events| - 1]);
    }
  }

  lemma MeetingDecides(ls: seq<Loader>, initial: seq<Loader>, disk: Disk)
    requires AllInPlace(ls, initial, disk) && Together(ls) && RefusedForAReason(ls)
    requires forall k :: 0 <= k < |ls| ==> ls[k].arrived
    ensures Decided(MeetOnce(ls), AllValidated(ls))
  {
    hide Checks;
    if !AllArrived(ls) {
      var k :| 0 <= k < |ls| && (ls[k].released || ls[k].ended.Some?);
      assert InPlace(ls[k], initial[k], disk, |ls|, k);
      if ls[k].released {
        forall j | 0 <= j < |ls| ensures ls[j].released && ls[j].payload.Some? && ls[j].ended != Some(Refused) {
          assert ls[j].released == ls[k].released;
        }
      } else {
        forall j | 0 <= j < |ls| ensures ls[j].ended == Some(Refused) && !ls[j].released {
          assert (ls[j].ended == Some(Refused)) == (ls[k].ended == Some(Refused));
          assert ls[j].released == ls[k].released;
        }
      }
    }
  }

  predicate AllPass(initial: seq<Loader>, disk: Disk, events: seq<LoadEvent>) {
    forall k :: 0 <= k < |initial| ==> Passes(initial, disk, events, k)
  }

  /** When every rank has tried and all have met, either every first attempt passed and all ranks are let through
      to their live state, or all are refused and nothing is touched, whatever follows. */
  lemma LoadDecides(initial: seq<Loader>, disk: Disk, trying: seq<LoadEvent>, more: seq<LoadEvent>)
    requires forall k :: 0 <= k < |initial| ==> Untried(initial[k])
    requires forall k :: 0 <= k < |initial| ==> Tries(trying, k)
    ensures var (ls, good) := (Load(initial, disk, trying + [MeetsOnce] + more), AllPass(initial, disk, trying));
            && Decided(ls, good)
            && (!good ==> forall k :: 0 <= k < |initial| ==> ls[k].live == initial[k].live)
  {
    hide Load, Checks, Together, InPlace, Decided, Tries, FirstIsGood, RefusedForAReason, Passes;
    var (ls, good) := (Load(initial, disk, trying), AllPass(initial, disk, trying));
    LoadSound(initial, disk, trying);
    RefusalsReasoned(initial, disk, trying);
    forall k | 0 <= k < |initial| ensures ls[k].arrived && (ls[k].payload.Some? <==> Passes(initial, disk, trying, k)) {
      ArrivedIff(initial, disk, trying, k);
    }
    assert AllValidated(ls) == good;
    MeetingDecides(ls, initial, disk);
    LoadOneMore(initial, disk, trying, MeetsOnce);
    DecidedForGood(initial, disk, trying + [MeetsOnce], more, good);
    if !good {
      var after := Load(initial, disk, trying + [MeetsOnce] + more);
      LoadSound(initial, disk, trying + [MeetsOnce] + more);
      forall k | 0 <= k < |initial| ensures after[k].live == initial[k].live {
        Untouched(after, initial, disk, k);
      }
    }
  }

  lemma LoadOneMore(initial: seq<Loader>, disk: Disk, events: seq<LoadEvent>, event: LoadEvent)
    ensures Load(initial, disk, events + [event]) == LoadNext(Load(initial, disk, events), disk, event)
  {
    assert (events + [event])[..|events + [event]| - 1] == events;
  }

  lemma Untouched(ls: seq<Loader>, initial: seq<Loader>, disk: Disk, k: nat)
    requires AllInPlace(ls, initial, disk) && Decided(ls, false) && k < |ls|
    ensures ls[k].live == initial[k].live
  {
    hide Checks;
    assert InPlace(ls[k], initial[k], disk, |ls|, k);
  }

  // ----- a load in which nothing fails

  /** How the restores of a rank go. */
  predicate RestoresGo(events: seq<LoadEvent>, r: nat, ok: bool) {
    forall e :: e in events && e.Restores? && e.rank == r ==> e.ok == ok
  }

  predicate TriesToRestore(events: seq<LoadEvent>, r: nat) {
    exists e :: e in events && e.Restores? && e.rank == r
  }

  predicate EndedAs(l: Loader, ok: bool) {
    l.payload.Some? && l.ended.Some?
    && (if ok then l.ended.value == Restored(l.step) && l.live == Whole(l.payload.value) else l.ended.value == Torn && l.live == Mixed)
  }

  lemma {:induction false} RestoresAs(initial: seq<Loader>, disk: Disk, events: seq<LoadEvent>, r: nat, ok: bool)
    requires forall k :: 0 <= k < |initial| ==> Untried(initial[k])
    requires r < |initial| && RestoresGo(events, r, ok)
    ensures var ended := Load(initial, disk, events)[r].ended;
            ended.Some? && !ended.value.Refused? ==> EndedAs(Load(initial, disk, events)[r], ok)
  {
    hide EndedAs, LoadNext, Together, InPlace;
    if events != [] {
      var front, last := events[..|events| - 1], events[|events| - 1];
      assert last in events;
      RestoresAs(initial, disk, front, r, ok);
      ReleasedHas(initial, disk, front, r);
      RestoreStep(Load(initial, disk, front), disk, last, r, ok);
    }
  }

  lemma ReleasedHas(initial: seq<Loader>, disk: Disk, events: seq<LoadEvent>, r: nat)
    requires forall k :: 0 <= k < |initial| ==> Untried(initial[k])
    requires r < |initial|
    ensures var l := Load(initial, disk, events)[r];
            (l.ended.Some? ==> l.arrived) && (l.released ==> l.arrived && l.payload.Some?)
  {
    hide Load, Checks;
    LoadSound(initial, disk, events);
    var ls := Load(initial, disk, events);
    assert InPlace(ls[r], initial[r], disk, |ls|, r);
  }

  lemma {:induction false} ReleasedEnds(initial: seq<Loader>, disk: Disk, events: seq<LoadEvent>, more: seq<LoadEvent>, r: nat)
    requires forall k :: 0 <= k < |initial| ==> Untried(initial[k])
    requires r < |initial| && Load(initial, disk, events)[r].released
    ensures var l := Load(initial, disk, events + more)[r];
            l.released && (TriesToRestore(more, r) ==> l.ended.Some?)
    decreases |more|
  {
    hide Load, LoadNext, TriesToRestore;
    if more == [] {
      assert events + more == events;
      NobodyRestores(r);
    } else {
      var front, last := more[..|more| - 1], more[|more| - 1];
      assert events + more == (events + front) + [last];
      ReleasedEnds(initial, disk, events, front, r);
      RestoreNext(more, r);
      ReleasedHas(initial, disk, events + front, r);
      LoadOneMore(initial, disk, events + front, last);
      ReleasedStep(Load(initial, disk, events + front), disk, last, r);
    }
  }

  lemma NobodyRestores(r: nat)
    ensures !TriesToRestore([], r)
  {
  }

  lemma RestoreNext(events: seq<LoadEvent>, r: nat)
    requires events != []
    ensures var last := events[|events| - 1];
            TriesToRestore(events, r) <==> TriesToRestore(events[..|events| - 1], r) || (last.Restores? && last.rank == r)
  {
    var front, last := events[..|events| - 1], events[|events| - 1];
    assert events == front + [last];
  }

  lemma RestoreStep(ls: seq<Loader>, disk: Disk, event: LoadEvent, r: nat, ok: bool)
    requires r < |ls| && (event.Restores? && event.rank == r ==> event.ok == ok)
    requires ls[r].ended.Some? && !ls[r].ended.value.Refused? ==> EndedAs(ls[r], ok)
    requires ls[r].ended.Some? ==> ls[r].arrived
    requires ls[r].released ==> ls[r].arrived && ls[r].payload.Some?
    ensures var l := LoadNext(ls, disk, event)[r];
            l.ended.Some? && !l.ended.value.Refused? ==> EndedAs(l, ok)
  {
    hide Checks, AllValidated;
  }

  lemma ReleasedStep(ls: seq<Loader>, disk: Disk, event: LoadEvent, r: nat)
    requires r < |ls| && ls[r].released && ls[r].arrived && ls[r].payload.Some?
    ensures var l := LoadNext(ls, disk, event)[r];
            l.released && (ls[r].ended.Some? || (event.Restores? && event.rank == r) ==> l.ended.Some?)
  {
    hide Checks, AllValidated;
  }

  /** If every rank's first attempt passes, and no restore of a rank fails, the rank ends up with what the
      checkpoint holds for it, at its step. */
  lemma CleanLoadRestores(initial: seq<Loader>, disk: Disk, trying: seq<LoadEvent>, restoring: seq<LoadEvent>, r: nat)
    requires forall k :: 0 <= k < |initial| ==> Untried(initial[k])
    requires forall k :: 0 <= k < |initial| ==> Tries(trying, k)
    requires r < |initial| && AllPass(initial, disk, trying)
    requires TriesToRestore(restoring, r) && RestoresGo(trying + [MeetsOnce] + restoring, r, true)
    ensures disk.manifest.Some? && r in disk.files
    ensures Load(initial, disk, trying + [MeetsOnce] + restoring)[r].ended == Some(Restored(disk.manifest.value.step))
    ensures Load(initial, disk, trying + [MeetsOnce] + restoring)[r].live == Whole(disk.files[r])
  {
    hide Load, Tries, FirstIsGood, TriesToRestore, RestoresGo, Together;
    assert Passes(initial, disk, trying, r);
    var met, events := trying + [MeetsOnce], trying + [MeetsOnce] + restoring;
    LoadDecides(initial, disk, trying, []);
    assert met + [] == met;
    LoadDecides(initial, disk, trying, restoring);
    LoadSound(initial, disk, events);
    RestoresAs(initial, disk, events, r, true);
    ReleasedEnds(initial, disk, met, restoring, r);
    assert InPlace(Load(initial, disk, events)[r], initial[r], disk, |initial|, r);
  }

  /** A rank that has ended keeps its live state. */
  lemma {:induction false} EndedForGood(initial: seq<Loader>, disk: Disk, events: seq<LoadEvent>, more: seq<LoadEvent>, r: nat)
    requires forall k :: 0 <= k < |initial| ==> Untried(initial[k])
    requires r < |initial| && Load(initial, disk, events)[r].ended.Some?
    ensures Load(initial, disk, events + more)[r] == Load(initial, disk, events)[r]
    decreases |more|
  {
    hide Load, LoadNext;
    if more == [] {
      assert events + more == events;
    } else {
      var front, last := more[..|more| - 1], more[|more| - 1];
      assert events + more == (events + front) + [last];
      EndedForGood(initial, disk, events, front, r);
      ReleasedHas(initial, disk, events + front, r);
      LoadOneMore(initial, disk, events + front, last);
      EndedStays(Load(initial, disk, events + front), disk, last, r);
    }
  }

  lemma EndedStays(ls: seq<Loader>, disk: Disk, event: LoadEvent, r: nat)
    requires r < |ls| && ls[r].ended.Some? && ls[r].arrived
    ensures LoadNext(ls, disk, event)[r] == ls[r]
  {
    hide Checks, AllValidated;
  }

  // ----- what is accepted

  /** The job that would have saved what is on disk. */
  function JobOn(disk: Disk, identity: nat, schemas: seq<nat>): (job: seq<Participant>)
    requires disk.manifest.Some?
    ensures |job| == |schemas|
  {
    seq(|schemas|, r requires 0 <= r < |schemas| =>
      Participant(disk.manifest.value.step, Some(identity), schemas[r], if r in disk.files then disk.files[r] else []))
  }

  /** Whatever is on disk, all ranks accept it exactly if it is the complete checkpoint of a job with their identity
      and their layouts. */
  lemma AcceptedIsComplete(disk: Disk, identity: nat, schemas: seq<nat>)
    requires schemas != []
    ensures (forall me: nat :: me < |schemas| ==> Checks(disk, |schemas|, me, identity, schemas[me])) <==>
              && disk.manifest.Some? && disk.manifest.value.identity == Some(identity)
              && T.CompleteFor(disk.manifest.value, JobOn(disk, identity, schemas), disk.files)
  {
    var world := |schemas|;
    if forall me: nat :: me < world ==> Checks(disk, world, me, identity, schemas[me]) {
      assert Checks(disk, world, 0, identity, schemas[0]);
      var m, job := disk.manifest.value, JobOn(disk, identity, schemas);
      forall r: nat | r < world ensures m.records[r] == RecordOf(job[r], r) && r in disk.files && disk.files[r] == job[r].content {
        assert Checks(disk, world, r, identity, schemas[r]);
      }
    }
    if disk.manifest.Some? && disk.manifest.value.identity == Some(identity)
       && T.CompleteFor(disk.manifest.value, JobOn(disk, identity, schemas), disk.files) {
      var m, job := disk.manifest.value, JobOn(disk, identity, schemas);
      forall r: nat | r < world ensures m.records[r] == RecordOf(job[r], r) && r in disk.files && disk.files[r] == job[r].content {
        assert job[r].step == m.step;
      }
    }
  }
}
