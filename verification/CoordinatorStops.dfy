/** What stops a run, what cancels it, and what it records: exactly what its schedule says. */
module CoordinatorStops {
  import opened Wrappers
  import opened Resources
  import opened CoordinatorSpec
  import opened CoordinatorInvariants
  import opened CoordinatorAdmission
  import opened CoordinatorCompletion
  import opened CoordinatorTheorems
  import opened CoordinatorProgress

  // ----- what an iteration adds

  /** A new result gives the run a reason to stop. */
  ghost predicate NewTrouble(s: State, t: State) {
    exists i :: i in t.results && i !in s.results && !t.results[i].outcome.Clean()
  }

  /** A new result leaves its cleanup unproven. */
  ghost predicate NewDoubt(s: State, t: State) {
    exists i :: i in t.results && i !in s.results && !t.results[i].outcome.Safe()
  }

  /** A wave is due, and its hook or a cancellation meanwhile prevents it. */
  predicate HookPrevents(job: Job, s: State, round: Round) {
    && job.config.policy == TerminalWaves && s.heldGroups == {} && s.pending != {}
    && (!round.admitHook.HookOk? || round.cancelledDuringAdmission)
  }

  /** The outcome first reported for a plan. */
  function FirstReport(finished: seq<(nat, Outcome)>, i: nat): Option<Outcome> {
    if finished == [] then None else if finished[0].0 == i then Some(finished[0].1) else FirstReport(finished[1..], i)
  }

  // ----- completions

  /** Flags are raised by what is new, and by nothing else. */
  ghost predicate Flagged(s: State, t: State) {
    && (t.stopped <==> s.stopped || NewTrouble(s, t) || !(t.quarantine <= s.quarantine))
    && (t.cancelled <==> s.cancelled || NewDoubt(s, t) || !(t.quarantine <= s.quarantine))
  }

  lemma NewLater(s: State, t: State, u: State)
    requires Advances(s, t) && Advances(t, u)
    ensures NewTrouble(s, u) <==> NewTrouble(s, t) || NewTrouble(t, u)
    ensures NewDoubt(s, u) <==> NewDoubt(s, t) || NewDoubt(t, u)
  {
    hide Outcome.Clean, Outcome.Safe;
  }

  lemma FlaggedOn(s: State, t: State, u: State)
    requires Flagged(s, t) && Flagged(t, u) && Advances(s, t) && Advances(t, u)
    ensures Flagged(s, u)
  {
    hide NewTrouble, NewDoubt;
    NewLater(s, t, u);
  }

  /** What a result does to the flags and the results. */
  lemma ObserveFlags(job: Job, s: State, i: nat, outcome: Outcome)
    requires i < |job.plans|
    ensures var t := Observe(job, s, i, outcome);
            && (t.stopped <==> s.stopped || !outcome.Clean()) && (t.cancelled <==> s.cancelled || !outcome.Safe())
            && t.results == s.results[i := EpisodeResult(job.plans[i].identity, outcome)] && t.quarantine == s.quarantine
  {
    hide Outcome.Clean, Outcome.Safe;
  }

  lemma RecordQuarantine(job: Job, s: State, i: nat, outcome: Outcome)
    requires i < |job.plans|
    ensures var t, u := Observe(job, s, i, outcome), Record(job, s, i, outcome);
            && u.stopped == t.stopped && u.cancelled == t.cancelled && u.results == t.results
            && u.quarantine == (if job.config.policy == NativeGroups && !outcome.Safe() then t.quarantine + {i} else t.quarantine)
  {
    hide Observe, Release, Quarantine, Outcome.Safe;
    ReleaseFields(job, Observe(job, s, i, outcome), i);
    QuarantineFields(job, Observe(job, s, i, outcome), i);
  }

  lemma OneNewResult(s: State, t: State, i: nat, result: EpisodeResult)
    requires t.results == s.results[i := result] && i !in s.results
    ensures NewTrouble(s, t) <==> !result.outcome.Clean()
    ensures NewDoubt(s, t) <==> !result.outcome.Safe()
  {
    hide Outcome.Clean, Outcome.Safe;
    assert i in t.results && t.results[i] == result;
  }

  lemma UnsafeIsTrouble(outcome: Outcome)
    ensures outcome.Clean() ==> outcome.Safe()
  {
  }

  lemma RecordFlagged(job: Job, s: State, i: nat, outcome: Outcome)
    requires i < |job.plans| && i !in s.results && i !in s.quarantine
    ensures Flagged(s, Record(job, s, i, outcome))
    ensures Record(job, s, i, outcome).results == s.results[i := EpisodeResult(job.plans[i].identity, outcome)]
  {
    hide Record, Observe, NewTrouble, NewDoubt, Outcome.Clean, Outcome.Safe;
    ObserveFlags(job, s, i, outcome);
    RecordQuarantine(job, s, i, outcome);
    UnsafeIsTrouble(outcome);
    OneNewResult(s, Record(job, s, i, outcome), i, EpisodeResult(job.plans[i].identity, outcome));
  }

  lemma NothingNew(t: State, u: State)
    requires u.results == t.results
    ensures !NewTrouble(t, u) && !NewDoubt(t, u)
  {
  }

  lemma CloseFlagged(job: Job, t: State, group: Group, uncertain: bool, i: nat)
    requires job.config.policy == TerminalWaves ==> Closable(job, t, group) && Member(job.plans, group, i)
    ensures Flagged(t, CloseGroup(job, t, group, uncertain))
    ensures CloseGroup(job, t, group, uncertain).results == t.results
  {
    hide NewTrouble, NewDoubt, CloseGroup, Closable, LessMembers, AllSafe;
    var u := CloseGroup(job, t, group, uncertain);
    if job.config.policy == TerminalWaves {
      ClosableMember(job, t, group, i);
      CloseWave(job, t, group, uncertain);
    } else {
      CloseNative(job, t, group, uncertain);
    }
    NothingNew(t, u);
  }

  lemma ClosableMember(job: Job, t: State, group: Group, i: nat)
    requires Closable(job, t, group) && Member(job.plans, group, i)
    ensures i !in t.quarantine
  {
    hide Sound;
  }

  lemma CompleteFlagged(job: Job, s: State, i: nat, outcome: Outcome, uncertain: bool)
    requires Running(job, s) && i in s.active && i < |job.plans|
    ensures Flagged(s, Complete(job, s, i, outcome, uncertain))
    ensures Complete(job, s, i, outcome, uncertain).results == s.results[i := EpisodeResult(job.plans[i].identity, outcome)]
  {
    hide Running, Record, CloseGroup, Flagged, Closable, Advances, Sound, Counted, OpenGroups, Holds, HoldsAfter, AllNonNegative;
    var t, group := Record(job, s, i, outcome), job.plans[i].group;
    RunningFacts(job, s);
    ActiveIsFresh(job, s, i);
    RecordFlagged(job, s, i, outcome);
    RecordRecords(job, s, i, outcome);
    if t.Count(group) == GroupSize(job.plans, group, |job.plans|) {
      if job.config.policy == TerminalWaves {
        CountTells(job.plans, t.completed, t.results.Keys, group);
        ActiveIsHeld(job, s, i);
        ReadyToClose(job, s, i, t, group);
        CloseWave(job, t, group, uncertain);
      } else {
        CloseNative(job, t, group, uncertain);
        Stands(t);
      }
      CloseFlagged(job, t, group, uncertain, i);
      CloseAdvances(job, t, group, uncertain);
      FlaggedOn(s, t, CloseGroup(job, t, group, uncertain));
    }
  }

  lemma CloseAdvances(job: Job, t: State, group: Group, uncertain: bool)
    requires job.config.policy == TerminalWaves ==> Closable(job, t, group)
    ensures Advances(t, CloseGroup(job, t, group, uncertain))
  {
    hide Closable, AllSafe, LessMembers, PlusMembers;
    if job.config.policy == TerminalWaves {
      hide CloseGroup;
      CloseWave(job, t, group, uncertain);
    }
  }

  lemma ActiveIsFresh(job: Job, s: State, i: nat)
    requires Running(job, s) && i in s.active
    ensures i !in s.results && i !in s.quarantine
  {
    hide Conserved, Once, Named, OpenGroups, Counted, Whole, Admissible;
  }

  /** The wake-up's first reports become results, and nothing else does. */
  ghost predicate Collects(job: Job, s: State, finished: seq<(nat, Outcome)>, t: State) {
    forall i: nat :: i < |job.plans| ==>
      && (i in t.results <==> i in s.results || (i in s.active && FirstReport(finished, i).Some?))
      && (i in t.results && i !in s.results ==>
            t.results[i] == EpisodeResult(job.plans[i].identity, FirstReport(finished, i).value))
      && (i in t.active <==> i in s.active && FirstReport(finished, i).None?)
  }

  lemma CollectsMore(job: Job, s: State, i: nat, outcome: Outcome, t: State, rest: seq<(nat, Outcome)>, u: State)
    requires Collects(job, t, rest, u) && Advances(t, u) && i < |job.plans| && i !in s.results
    requires if i in s.active
             then t.results == s.results[i := EpisodeResult(job.plans[i].identity, outcome)] && t.active == s.active - {i}
             else t == s
    ensures Collects(job, s, [(i, outcome)] + rest, u)
  {
    var finished := [(i, outcome)] + rest;
    assert finished[1..] == rest;
  }

  lemma SkipsOther(job: Job, s: State, first: (nat, Outcome), rest: seq<(nat, Outcome)>, u: State)
    requires Collects(job, s, rest, u) && first.0 !in s.active
    ensures Collects(job, s, [first] + rest, u)
  {
    var finished := [first] + rest;
    assert finished[1..] == rest;
  }

  lemma {:induction false} CompletionsReport(job: Job, s: State, finished: seq<(nat, Outcome)>, uncertain: bool)
    requires Running(job, s)
    ensures var t := CompleteAll(job, s, finished, uncertain); Collects(job, s, finished, t) && Flagged(s, t)
    decreases |finished|
  {
    hide Running, Complete, Collects, Flagged, Advances;
    if finished == [] {
      NothingCollected(job, s);
    } else {
      var i, outcome, rest := finished[0].0, finished[0].1, finished[1..];
      assert [(i, outcome)] + rest == finished;
      if i in s.active && i < |job.plans| {
        var t := Complete(job, s, i, outcome, uncertain);
        ActiveIsFresh(job, s, i);
        CompleteRuns(job, s, i, outcome, uncertain);
        CompleteFlagged(job, s, i, outcome, uncertain);
        CompletionsReport(job, t, rest, uncertain);
        CompleteAllRuns(job, t, rest, uncertain);
        FlaggedOn(s, t, CompleteAll(job, t, rest, uncertain));
        CollectsMore(job, s, i, outcome, t, rest, CompleteAll(job, t, rest, uncertain));
      } else {
        PendingInRange(job, s);
        CompletionsReport(job, s, rest, uncertain);
        SkipsOther(job, s, finished[0], rest, CompleteAll(job, s, rest, uncertain));
      }
    }
  }

  lemma NothingCollected(job: Job, s: State)
    ensures Collects(job, s, [], s) && Flagged(s, s)
  {
  }

  // ----- admission

  /** What the admission phase does to the flags. */
  ghost predicate Admitting(job: Job, s: State, round: Round, t: State) {
    && (t.stopped <==> s.stopped || HookPrevents(job, s, round))
    && (t.cancelled <==> s.cancelled || (!s.stopped && HookPrevents(job, s, round) && !round.admitHook.HookFails?))
    && (t.ended <==> s.ended || (!s.stopped && HookPrevents(job, s, round) && round.admitHook.HookCancelled?))
    && (HookPrevents(job, s, round) ==> t.admitted == s.admitted)
    && t.results == s.results && t.quarantine == s.quarantine && t.draining == s.draining && s.active <= t.active
  }

  lemma AdmittingWave(job: Job, s: State, round: Round)
    requires Running(job, s) && !s.stopped && job.config.policy == TerminalWaves
    requires forall i :: i in s.pending ==> i < |job.plans|
    ensures Admitting(job, s, round, AdmitWave(job, s, round))
  {
    hide Running, AdmitMembers;
    if s.heldGroups == {} && s.pending != {} && round.admitHook.HookOk? && !round.cancelledDuringAdmission {
      FirstWaveRuns(job, s, First(job, s.pending));
    }
  }

  lemma AdmittingPhase(job: Job, s: State, round: Round)
    requires Running(job, s) && forall i :: i in s.pending ==> i < |job.plans|
    ensures !s.stopped ==> Admitting(job, s, round, AdmitPhase(job, s, round))
    ensures s.stopped ==> AdmitPhase(job, s, round) == s
  {
    hide Running, Admitting, AdmitWave, AdmitNative;
    if !s.stopped {
      if job.config.policy == TerminalWaves {
        AdmittingWave(job, s, round);
      } else {
        NoPassedOver(job, s);
        NativeScanRuns(job, Scan(s, {}), 0);
        SameIsAdmitting(job, s, round, AdmitNative(job, Scan(s, {}), 0));
      }
    }
  }

  lemma NoPassedOver(job: Job, s: State)
    ensures PassedOver(job, Scan(s, {}), 0)
  {
  }

  lemma SameIsAdmitting(job: Job, s: State, round: Round, t: State)
    requires job.config.policy == NativeGroups && SameButAdmissions(s, t)
    ensures Admitting(job, s, round, t)
  {
  }

  // ----- iterations

  /** The deadline has passed in a cancelled run. */
  predicate Overdue(s: State, round: Round) {
    (s.cancelled || round.cancelled) && round.deadlinePassed
  }

  /** Exactly what stops and what cancels, and where results come from. */
  ghost predicate Explained(job: Job, s: State, round: Round, t: State) {
    && (t.stopped <==> s.stopped || s.cancelled || round.cancelled || HookPrevents(job, s, round) || NewTrouble(s, t)
                       || !(t.quarantine <= s.quarantine))
    && (t.cancelled <==> s.cancelled || round.cancelled || NewDoubt(s, t) || !(t.quarantine <= s.quarantine)
                         || (!s.stopped && HookPrevents(job, s, round) && !round.admitHook.HookFails?)
                         || (round.interrupted && !t.ended))
    && (HookPrevents(job, s, round) ==> t.admitted == s.admitted)
    && (t.draining != s.draining ==> Overdue(s, round))
    && (Overdue(s, round) ==> t.ended)
    && (s.stopped && s.active == {} ==> t.ended && t.results == s.results)
    && forall i: nat :: i < |job.plans| && i in t.results && i !in s.results ==>
         if i in t.draining then t.results[i] == Unresolved(job.plans[i])
         else FirstReport(round.finished, i) == Some(t.results[i].outcome)
  }

  lemma NoticedRuns(job: Job, s: State, round: Round)
    requires Running(job, s)
    ensures var t := Notice(s, round);
            && Running(job, t) && t == s.(stopped := t.stopped, cancelled := t.cancelled)
            && (t.stopped <==> s.stopped || s.cancelled || round.cancelled) && (t.cancelled <==> s.cancelled || round.cancelled)
  {
    hide Running;
    NoticeRuns(job, s, round);
  }

  /** The admission phase seen from before the round's cancellation was noticed. */
  ghost predicate Ready(job: Job, s: State, round: Round, t: State) {
    && (t.stopped <==> s.stopped || s.cancelled || round.cancelled || HookPrevents(job, s, round))
    && (t.cancelled <==> s.cancelled || round.cancelled
                         || (!s.stopped && HookPrevents(job, s, round) && !round.admitHook.HookFails?))
    && (t.ended ==> !s.stopped && HookPrevents(job, s, round) && round.admitHook.HookCancelled?)
    && (HookPrevents(job, s, round) ==> t.admitted == s.admitted)
    && t.results == s.results && t.quarantine == s.quarantine && t.draining == s.draining
    && (s.stopped ==> t.active == s.active)
    && (t.ended ==> !(s.cancelled || round.cancelled))
  }

  lemma ReadyAfter(job: Job, s: State, round: Round)
    requires Running(job, s) && !s.ended && forall i :: i in s.pending ==> i < |job.plans|
    ensures Ready(job, s, round, AdmitPhase(job, Notice(s, round), round))
  {
    hide Running, Notice, AdmitPhase, HookPrevents;
    var noticed := Notice(s, round);
    NoticedRuns(job, s, round);
    AdmittingPhase(job, noticed, round);
    SamePrevents(job, s, noticed, round);
  }

  lemma SamePrevents(job: Job, s: State, t: State, round: Round)
    requires t.heldGroups == s.heldGroups && t.pending == s.pending
    ensures HookPrevents(job, t, round) <==> HookPrevents(job, s, round)
  {
  }

  lemma ExplainedEnding(job: Job, s: State, round: Round, ready: State, t: State)
    requires Ready(job, s, round, ready) && (ready.ended || ready.active == {}) && t == ready.(ended := true)
    ensures Explained(job, s, round, t)
  {
    hide HookPrevents, FirstReport, Outcome.Clean, Outcome.Safe;
  }

  lemma ExplainedInterrupted(job: Job, s: State, round: Round, ready: State)
    requires Ready(job, s, round, ready) && !ready.ended && ready.active != {} && round.interrupted && !Overdue(s, round)
    ensures Explained(job, s, round, ready.(cancelled := true))
  {
    hide HookPrevents, FirstReport, Outcome.Clean, Outcome.Safe;
  }

  lemma ExplainedDrain(job: Job, s: State, round: Round, ready: State, t: State)
    requires Ready(job, s, round, ready) && !ready.ended && ready.active != {} && Overdue(s, round)
    requires t.ended && t.stopped == ready.stopped && t.cancelled == ready.cancelled && t.admitted == ready.admitted
    requires forall i :: i in t.results && i !in ready.results && i < |job.plans| ==>
               i in t.draining && t.results[i] == Unresolved(job.plans[i])
    ensures Explained(job, s, round, t)
  {
    hide HookPrevents, FirstReport, Outcome.Clean, Outcome.Safe;
  }

  lemma ExplainedCompletion(job: Job, s: State, round: Round, ready: State, next: State, ended: bool)
    requires Ready(job, s, round, ready) && !ready.ended && ready.active != {} && !Overdue(s, round) && !round.interrupted
    requires Collects(job, ready, round.finished, next) && Flagged(ready, next)
    requires next.admitted == ready.admitted && next.draining == ready.draining
    requires s.draining !! next.results.Keys || s.draining == {}
    ensures Explained(job, s, round, next.(ended := ended))
  {
    hide HookPrevents, FirstReport, Outcome.Clean, Outcome.Safe;
    assert NewTrouble(s, next) <==> NewTrouble(ready, next);
    assert NewDoubt(s, next) <==> NewDoubt(ready, next);
  }

  lemma DrainExplains(job: Job, s: State)
    requires Running(job, s)
    ensures var t := Drain(job, s);
            && t.ended && t.stopped == s.stopped && t.cancelled == s.cancelled && t.admitted == s.admitted
            && forall i :: i in t.results && i !in s.results && i < |job.plans| ==>
                 i in t.draining && t.results[i] == Unresolved(job.plans[i])
  {
    hide Running, Sound, Drained, Conserved, Named, Holds, Owed, DrainFrom, AllNonNegative;
    OwedIsHeld(job, s);
    RunningFacts(job, s);
    NothingDrained(job, s);
    DrainFromKeeps(job, s, 0, s);
    DrainFromDraining(job, s, 0, s);
    DrainedUnresolved(job, s, DrainFrom(job, s, 0));
  }

  lemma DrainedUnresolved(job: Job, s: State, t: State)
    requires Drained(job, s, |job.plans|, t)
    requires forall j: nat :: j < |job.plans| && j in s.active ==> j in t.draining
    ensures t.stopped == s.stopped && t.cancelled == s.cancelled && t.admitted == s.admitted
    ensures forall i :: i in t.results && i !in s.results && i < |job.plans| ==>
              i in t.draining && t.results[i] == Unresolved(job.plans[i])
  {
  }

  lemma DrainOneDraining(job: Job, t: State, i: nat)
    requires i < |job.plans|
    ensures var u := DrainOne(job, t, i); u.active == t.active && u.draining == t.draining + (if i in t.active then {i} else {})
  {
    hide Quarantine;
    QuarantineFields(job, t, i);
  }

  lemma {:induction false} DrainFromDraining(job: Job, s: State, i: nat, t: State)
    requires i <= |job.plans| && t.active == s.active && forall j: nat :: j < i && j in s.active ==> j in t.draining
    ensures forall j: nat :: j < |job.plans| && j in s.active ==> j in DrainFrom(job, t, i).draining
    decreases |job.plans| - i
  {
    hide DrainOne;
    if i < |job.plans| {
      DrainOneDraining(job, t, i);
      DrainFromDraining(job, s, i + 1, DrainOne(job, t, i));
    }
  }

  /** Until the end nobody has been left behind. */
  ghost predicate NobodyDrained(s: State) {
    s.ended || s.draining == {}
  }

  lemma IterationExplained(job: Job, s: State, round: Round)
    requires Running(job, s) && !s.ended && s.draining == {} && forall i :: i in s.pending ==> i < |job.plans|
    ensures Explained(job, s, round, Iterate(job, s, round)) && NobodyDrained(Iterate(job, s, round))
  {
    hide Running, Notice, AdmitPhase, Explained, Ready, Collects, Flagged, Drain, CompleteAll, Phased, Advances, DoneAll;
    var noticed := Notice(s, round);
    NoticedRuns(job, s, round);
    var ready := AdmitPhase(job, noticed, round);
    ReadyAfter(job, s, round);
    AdmitPhaseRuns(job, noticed, round);
    PhasedRunning(job, noticed, round, ready);
    ReadyDraining(job, s, round, ready);
    if ready.ended || ready.active == {} {
      ExplainedEnding(job, s, round, ready, ready.(ended := true));
    } else if noticed.cancelled && round.deadlinePassed {
      DrainExplains(job, ready);
      ExplainedDrain(job, s, round, ready, Drain(job, ready));
    } else if round.interrupted {
      ExplainedInterrupted(job, s, round, ready);
    } else {
      var next := CompleteAll(job, ready, round.finished, round.closureUncertain);
      CompletionsReport(job, ready, round.finished, round.closureUncertain);
      CompleteAllRuns(job, ready, round.finished, round.closureUncertain);
      DoneDrains(job, ready, next);
      ExplainedCompletion(job, s, round, ready, next, next.pending == {} && next.active == {});
    }
  }

  lemma PhasedRunning(job: Job, s: State, round: Round, t: State)
    requires Phased(job, s, round, t)
    ensures !t.ended ==> Running(job, t)
  {
    hide Running, Ended;
  }

  lemma ReadyDraining(job: Job, s: State, round: Round, t: State)
    requires Ready(job, s, round, t)
    ensures t.draining == s.draining
  {
    hide HookPrevents;
  }

  lemma DoneDrains(job: Job, s: State, t: State)
    requires DoneAll(job, s, t)
    ensures t.draining == s.draining && t.admitted == s.admitted
  {
    hide Running, Advances;
  }

  // ----- whole runs

  lemma {:induction false} RunDrainsLast(job: Job, started: bool, rounds: seq<Round>)
    requires Admissible(job.config, job.plans)
    ensures NobodyDrained(Run(job, started, rounds))
    decreases |rounds|
  {
    hide Admissible, Safe, Iterate, Running;
    if rounds != [] {
      var front := rounds[..|rounds| - 1];
      RunDrainsLast(job, started, front);
      var s := Run(job, started, front);
      SafeIsInRange(job, s);
      if s.ended {
        EndedStays(job, s, rounds[|rounds| - 1]);
      } else {
        SafeRuns(job, s);
        IterationExplained(job, s, rounds[|rounds| - 1]);
      }
    }
  }

  lemma RunNext(job: Job, started: bool, rounds: seq<Round>, round: Round)
    requires Admissible(job.config, job.plans)
    ensures forall i :: i in Run(job, started, rounds).pending ==> i < |job.plans|
    ensures Run(job, started, rounds + [round]) == Iterate(job, Run(job, started, rounds), round)
  {
    hide Admissible, Safe, Iterate;
    var more := rounds + [round];
    assert more[..|more| - 1] == rounds;
    SafeIsInRange(job, Run(job, started, rounds));
  }

  /** After any schedule, one more round stops or cancels the run for exactly these causes: a cancellation, a wave's
      hook, a result that gives a reason, or a wave that had to be quarantined. It drains exactly in an overdue run,
      and records nothing but what was reported or left behind. */
  lemma RoundExplained(job: Job, started: bool, rounds: seq<Round>, round: Round)
    requires Admissible(job.config, job.plans)
    ensures var s, t := Run(job, started, rounds), Run(job, started, rounds + [round]);
            if s.ended then t == s else Explained(job, s, round, t)
  {
    hide Admissible, Safe, Iterate, Running, Explained;
    var s := Run(job, started, rounds);
    RunNext(job, started, rounds, round);
    RunDrainsLast(job, started, rounds);
    if s.ended {
      EndedStays(job, s, round);
    } else {
      SafeRuns(job, s);
      IterationExplained(job, s, round);
    }
  }

  ghost predicate Closed(s: State) {
    s.stopped || s.ended
  }

  lemma {:induction false} ClosedAdmitsNothing(job: Job, started: bool, rounds: seq<Round>, k: nat)
    requires Admissible(job.config, job.plans) && k <= |rounds| && Closed(Run(job, started, rounds[..k]))
    ensures Run(job, started, rounds).admitted == Run(job, started, rounds[..k]).admitted && Closed(Run(job, started, rounds))
    decreases |rounds|
  {
    hide Admissible, Safe, Iterate, Advances;
    if k == |rounds| {
      assert rounds[..k] == rounds;
    } else {
      var front := rounds[..|rounds| - 1];
      assert front[..k] == rounds[..k];
      ClosedAdmitsNothing(job, started, front, k);
      var s := Run(job, started, front);
      SafeIsInRange(job, s);
      SafeStaysSafe(job, s, rounds[|rounds| - 1]);
      if s.ended {
        EndedStays(job, s, rounds[|rounds| - 1]);
      } else {
        AdvancesStopped(s, Iterate(job, s, rounds[|rounds| - 1]));
      }
    }
  }

  lemma AdvancesStopped(s: State, t: State)
    requires Advances(s, t)
    ensures s.stopped ==> t.stopped
  {
  }

  /** What ends admission in round k, whether the environment or an earlier result. */
  ghost predicate EndsAdmission(job: Job, started: bool, rounds: seq<Round>, k: nat)
    requires Admissible(job.config, job.plans) && k < |rounds|
  {
    var s := Run(job, started, rounds[..k]);
    rounds[k].cancelled || HookPrevents(job, s, rounds[k])
  }

  /** Nothing is admitted from the round on in which the run is cancelled or a wave's hook fails. */
  lemma CancelledAdmitsNothing(job: Job, started: bool, rounds: seq<Round>, k: nat)
    requires Admissible(job.config, job.plans) && k < |rounds| && EndsAdmission(job, started, rounds, k)
    ensures Run(job, started, rounds).admitted == Run(job, started, rounds[..k]).admitted
  {
    hide Run, Admissible, Safe, HookPrevents, Advances, Iterate;
    var s, round := Run(job, started, rounds[..k]), rounds[k];
    assert rounds[..k + 1] == rounds[..k] + [round];
    RoundExplained(job, started, rounds[..k], round);
    ClosedAdmitsNothing(job, started, rounds, k + 1);
    RunNext(job, started, rounds[..k], round);
    SafeStaysSafe(job, s, round);
  }

  /** Some result has no proof of its cleanup or of its requests, failed on infrastructure, waits for a review or was
      not admitted; or some charge is quarantined. */
  ghost predicate Troubled(s: State) {
    s.quarantine != {} || exists i :: i in s.results && GivesReason(s.results[i].outcome)
  }

  predicate GivesReason(outcome: Outcome) {
    outcome.cleanup == Unknown || outcome.uncertain || outcome.infrastructure || outcome.reviewRequired
    || outcome.execution == NotAdmitted
  }

  lemma ReasonIff(outcome: Outcome)
    ensures GivesReason(outcome) <==> !outcome.Clean()
  {
  }

  lemma {:induction false} TroubledIsClosed(job: Job, started: bool, rounds: seq<Round>)
    requires Admissible(job.config, job.plans)
    ensures Troubled(Run(job, started, rounds)) ==> Closed(Run(job, started, rounds))
    decreases |rounds|
  {
    hide Admissible, Safe, Iterate, Outcome.Clean, Explained;
    if rounds == [] {
      LaunchUntroubled(job, started);
    } else {
      var front, round := rounds[..|rounds| - 1], rounds[|rounds| - 1];
      assert front + [round] == rounds;
      TroubledIsClosed(job, started, front);
      RoundExplained(job, started, front, round);
      RunAdvances(job, started, rounds, |rounds| - 1);
      if !Run(job, started, front).ended {
        TroubleIsNew(job, Run(job, started, front), round, Run(job, started, rounds));
      }
    }
  }

  lemma LaunchUntroubled(job: Job, started: bool)
    ensures !Troubled(Launch(job, started))
  {
  }

  lemma TroubleIsNew(job: Job, s: State, round: Round, t: State)
    requires Explained(job, s, round, t) && Advances(s, t) && (Troubled(s) ==> s.stopped)
    ensures Troubled(t) ==> t.stopped
  {
    hide Outcome.Clean, Outcome.Safe, HookPrevents, FirstReport, GivesReason;
    forall outcome: Outcome ensures GivesReason(outcome) <==> !outcome.Clean() {
      ReasonIff(outcome);
    }
  }

  /** Nothing is admitted after a result that is unsafe, an infrastructure failure, not admitted, or up for review, nor
      after a wave could not be closed. */
  lemma TroubledAdmitsNothing(job: Job, started: bool, rounds: seq<Round>, k: nat)
    requires Admissible(job.config, job.plans) && k <= |rounds| && Troubled(Run(job, started, rounds[..k]))
    ensures Run(job, started, rounds).admitted == Run(job, started, rounds[..k]).admitted
  {
    hide Run, Admissible, Troubled;
    TroubledIsClosed(job, started, rounds[..k]);
    ClosedAdmitsNothing(job, started, rounds, k);
  }

  /** Every recorded result is the first report of its plan in some round, or says that the deadline left it behind. */
  lemma {:induction false} ResultsAreReports(job: Job, started: bool, rounds: seq<Round>, i: nat)
    requires Admissible(job.config, job.plans) && i < |job.plans| && i in Run(job, started, rounds).results
    ensures var s := Run(job, started, rounds);
            || (i in s.draining && s.results[i] == Unresolved(job.plans[i]))
            || exists k :: 0 <= k < |rounds| && FirstReport(rounds[k].finished, i) == Some(s.results[i].outcome)
    decreases |rounds|
  {
    hide Admissible, Safe, Iterate, Explained, FirstReport;
    if rounds == [] {
      NoResultsYet(job, started);
    } else {
      var front, round := rounds[..|rounds| - 1], rounds[|rounds| - 1];
      var s, t := Run(job, started, front), Run(job, started, rounds);
      assert front + [round] == rounds;
      RoundExplained(job, started, front, round);
      RunDrainsLast(job, started, front);
      RunAdvances(job, started, rounds, |rounds| - 1);
      if i in s.results {
        ResultsAreReports(job, started, front, i);
        if k :| 0 <= k < |front| && FirstReport(front[k].finished, i) == Some(s.results[i].outcome) {
          assert rounds[k] == front[k];
        }
      } else {
        NewIsExplained(job, s, round, t, i);
        assert rounds[|rounds| - 1] == round;
      }
    }
  }

  lemma NoResultsYet(job: Job, started: bool)
    ensures Launch(job, started).results == map[]
  {
  }

  lemma NewIsExplained(job: Job, s: State, round: Round, t: State, i: nat)
    requires i in t.results && i !in s.results && i < |job.plans|
    requires if s.ended then t == s else Explained(job, s, round, t)
    ensures (i in t.draining && t.results[i] == Unresolved(job.plans[i]))
            || FirstReport(round.finished, i) == Some(t.results[i].outcome)
  {
    hide FirstReport, HookPrevents, NewTrouble, NewDoubt;
  }

  /** A cancellation sticks. */
  lemma {:induction false} CancelledStays(job: Job, started: bool, rounds: seq<Round>, j: nat)
    requires Admissible(job.config, job.plans) && j < |rounds| && rounds[j].cancelled
    ensures Run(job, started, rounds).ended || Run(job, started, rounds).cancelled
    decreases |rounds|
  {
    hide Admissible, Safe, Iterate, Explained;
    var front, round := rounds[..|rounds| - 1], rounds[|rounds| - 1];
    assert front + [round] == rounds;
    RoundExplained(job, started, front, round);
    if j < |front| {
      CancelledStays(job, started, front, j);
    }
    StaysCancelled(job, Run(job, started, front), round, Run(job, started, rounds));
  }

  lemma StaysCancelled(job: Job, s: State, round: Round, t: State)
    requires if s.ended then t == s else Explained(job, s, round, t)
    ensures s.ended ==> t.ended
    ensures s.cancelled || round.cancelled ==> t.ended || t.cancelled
    ensures Overdue(s, round) ==> t.ended
  {
    hide HookPrevents, NewTrouble, NewDoubt, FirstReport;
  }

  /** A run that was cancelled in some round has ended after the first round from then on that finds the deadline passed. */
  lemma OverdueEnds(job: Job, started: bool, rounds: seq<Round>, j: nat)
    requires Admissible(job.config, job.plans) && j < |rounds| && rounds[j].cancelled && rounds[|rounds| - 1].deadlinePassed
    ensures Run(job, started, rounds).ended
  {
    hide Run, Admissible, Explained;
    var front, round := rounds[..|rounds| - 1], rounds[|rounds| - 1];
    assert front + [round] == rounds;
    RoundExplained(job, started, front, round);
    if j < |front| {
      CancelledStays(job, started, front, j);
    }
    StaysCancelled(job, Run(job, started, front), round, Run(job, started, rounds));
  }
}
