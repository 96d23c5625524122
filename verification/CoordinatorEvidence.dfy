/** No charge of a coordinator run is released without proof: a plan whose cleanup is unproven keeps its
    resources for good, and a wave is released only if all its members prove their cleanup. */
module CoordinatorEvidence {
  import opened Resources
  import opened CoordinatorSpec
  import opened CoordinatorInvariants
  import opened CoordinatorAdmission
  import opened CoordinatorCompletion
  import opened CoordinatorTheorems

  /** Under native groups a finished plan's charge is held exactly if its result does not prove its cleanup. A wave
      plan that is neither waiting nor held belongs to a wave all of whose results prove their cleanup. */
  ghost predicate Evident(job: Job, pending: set<nat>, results: map<nat, EpisodeResult>, held: set<nat>) {
    match job.config.policy
    case NativeGroups => forall i :: i in results ==> (i in held <==> !results[i].outcome.Safe())
    case TerminalWaves =>
      forall i: nat :: i < |job.plans| && i !in pending && i !in held ==> AllSafe(job.plans, results, job.plans[i].group)
  }

  ghost predicate EvidentIn(job: Job, s: State) {
    Evident(job, s.pending, s.results, s.held)
  }

  /** Results only ever arrive for plans without one. */
  ghost predicate Extends(results: map<nat, EpisodeResult>, more: map<nat, EpisodeResult>) {
    forall i :: i in results ==> i in more && more[i] == results[i]
  }

  lemma AllSafeExtends(plans: seq<Plan>, results: map<nat, EpisodeResult>, more: map<nat, EpisodeResult>, group: Group)
    requires AllSafe(plans, results, group) && Extends(results, more)
    ensures AllSafe(plans, more, group)
  {
    hide Outcome.Safe;
  }

  /** More results leave what is known about waves as it was. */
  lemma WavesExtend(job: Job, pending: set<nat>, results: map<nat, EpisodeResult>, more: map<nat, EpisodeResult>, held: set<nat>)
    requires job.config.policy == TerminalWaves && Evident(job, pending, results, held) && Extends(results, more)
    ensures Evident(job, pending, more, held)
  {
    hide AllSafe, Extends;
    forall i: nat | i < |job.plans| && i !in pending && i !in held
      ensures AllSafe(job.plans, more, job.plans[i].group)
    {
      AllSafeExtends(job.plans, results, more, job.plans[i].group);
    }
  }

  // ----- admission

  /** Admission charges whatever it takes off the waiting list, and nothing that has a result. */
  lemma ChargingIsEvident(job: Job, s: State, t: State)
    requires EvidentIn(job, s) && t.results == s.results
    requires t.pending <= s.pending && s.pending !! s.results.Keys
    requires forall i: nat :: i in t.held <==> i in s.held || (i in s.pending && i !in t.pending)
    ensures EvidentIn(job, t)
  {
    hide AllSafe, Outcome.Safe;
  }

  ghost predicate Charges(s: State, t: State) {
    && t.results == s.results && t.pending <= s.pending
    && forall i: nat :: i in t.held <==> i in s.held || (i in s.pending && i !in t.pending)
  }

  lemma ConsiderCharges(job: Job, scan: Scan, i: nat)
    requires i < |job.plans|
    ensures Charges(scan.state, Consider(job, scan, i).state)
  {
    hide Fits, Credit, WithGroup;
  }

  lemma ChargesOn(s: State, t: State, u: State)
    requires Charges(s, t) && Charges(t, u)
    ensures Charges(s, u)
  {
  }

  lemma {:induction false} ScanCharges(job: Job, scan: Scan, i: nat)
    requires i <= |job.plans|
    ensures Charges(scan.state, AdmitNative(job, scan, i))
    decreases |job.plans| - i
  {
    hide Charges, Consider;
    if i < |job.plans| && |scan.state.active| < job.config.maxWorkers {
      ConsiderCharges(job, scan, i);
      ScanCharges(job, Consider(job, scan, i), i + 1);
      ChargesOn(scan.state, Consider(job, scan, i).state, AdmitNative(job, scan, i));
    } else {
      ChargesNothing(scan.state);
    }
  }

  lemma ChargesNothing(s: State)
    ensures Charges(s, s)
  {
  }

  lemma MembersCharge(job: Job, s: State, group: Group)
    requires forall i :: Member(job.plans, group, i) ==> i in s.pending && i !in s.active && i !in s.held
    ensures Charges(s, AdmitMembers(job, s, group, |job.plans|))
  {
    AdmitMembersMoves(job, s, group, |job.plans|);
  }

  lemma NativeAdmissionIsEvident(job: Job, s: State)
    requires EvidentIn(job, s) && s.pending !! s.results.Keys
    ensures EvidentIn(job, AdmitNative(job, Scan(s, {}), 0))
  {
    hide AdmitNative, Charges, EvidentIn;
    ScanCharges(job, Scan(s, {}), 0);
    ChargedIsEvident(job, s, AdmitNative(job, Scan(s, {}), 0));
  }

  lemma WaveAdmissionIsEvident(job: Job, s: State, round: Round)
    requires Running(job, s) && EvidentIn(job, s) && job.config.policy == TerminalWaves
    requires s.pending !! s.results.Keys && forall i :: i in s.pending ==> i < |job.plans|
    ensures EvidentIn(job, AdmitWave(job, s, round))
  {
    hide Running, AdmitMembers, Charges, Evident, First;
    if s.heldGroups == {} && s.pending != {} {
      assert exists j :: j in s.pending && 0 <= j < |job.plans|;
      var first := First(job, s.pending);
      WaveWaits(job, s, first);
      MembersCharge(job, s, job.plans[first].group);
      ChargedIsEvident(job, s, AdmitMembers(job, s, job.plans[first].group, |job.plans|));
    }
  }

  lemma AdmissionIsEvident(job: Job, s: State, round: Round)
    requires Running(job, s) && EvidentIn(job, s)
    requires forall i :: i in s.pending ==> i < |job.plans|
    ensures EvidentIn(job, AdmitPhase(job, s, round))
  {
    hide Running, AdmitNative, AdmitWave, EvidentIn;
    WaitingApart(job, s);
    if !s.stopped {
      if job.config.policy == TerminalWaves {
        WaveAdmissionIsEvident(job, s, round);
      } else {
        NativeAdmissionIsEvident(job, s);
      }
    }
  }

  lemma ChargedIsEvident(job: Job, s: State, t: State)
    requires EvidentIn(job, s) && Charges(s, t) && s.pending !! s.results.Keys
    ensures EvidentIn(job, t)
  {
    ChargingIsEvident(job, s, t);
  }

  lemma WaitingApart(job: Job, s: State)
    requires Running(job, s)
    ensures s.pending !! s.results.Keys
  {
    hide Conserved, Once, Named, OpenGroups, Counted, Whole, Holds;
  }

  /** The wave of a waiting plan waits whole. */
  lemma WaveWaits(job: Job, s: State, first: nat)
    requires Running(job, s) && job.config.policy == TerminalWaves && first in s.pending && first < |job.plans|
    ensures forall i :: Member(job.plans, job.plans[first].group, i) ==> i in s.pending && i !in s.active && i !in s.held
  {
    hide Conserved, Once, Named, OpenGroups, Counted, Holds;
  }

  /** Once no wave is held, the wave of the plan that waits longest starts, whole and alone. */
  lemma OldestWaveStarts(job: Job, s: State, round: Round, i: nat)
    requires Running(job, s) && job.config.policy == TerminalWaves && s.heldGroups == {} && s.pending != {}
    requires forall j :: j in s.pending ==> j < |job.plans|
    requires round.admitHook.HookOk? && !round.cancelledDuringAdmission && i < |job.plans|
    ensures exists j :: j in s.pending && 0 <= j < |job.plans|
    ensures var t, first := AdmitWave(job, s, round), First(job, s.pending);
            && (i in t.active <==> job.plans[i].group == job.plans[first].group)
            && (i in t.pending <==> i in s.pending && job.plans[i].group != job.plans[first].group)
  {
    hide Running, AdmitMembers, First;
    assert exists j :: j in s.pending && 0 <= j < |job.plans|;
    var first := First(job, s.pending);
    NoWaveMeansIdle(job, s);
    WaveWaits(job, s, first);
    AdmitMembersMoves(job, s, job.plans[first].group, |job.plans|);
  }

  // ----- completion

  lemma NativeRecordIsEvident(job: Job, s: State, i: nat, outcome: Outcome)
    requires job.config.policy == NativeGroups && EvidentIn(job, s) && i < |job.plans| && i in s.held && i !in s.results
    ensures EvidentIn(job, Record(job, s, i, outcome))
  {
    hide Credit, Debit, Outcome.Safe, Outcome.Clean;
  }

  lemma WaveRecordIsEvident(job: Job, s: State, i: nat, outcome: Outcome)
    requires job.config.policy == TerminalWaves && EvidentIn(job, s) && i < |job.plans| && i !in s.results
    ensures EvidentIn(job, Record(job, s, i, outcome))
  {
    hide Outcome.Safe, Outcome.Clean, Evident;
    WavesExtend(job, s.pending, s.results, Observe(job, s, i, outcome).results, s.held);
  }

  lemma RecordIsEvident(job: Job, s: State, i: nat, outcome: Outcome)
    requires Running(job, s) && EvidentIn(job, s) && i in s.active && i < |job.plans|
    ensures EvidentIn(job, Record(job, s, i, outcome))
  {
    hide Running, EvidentIn, Record;
    ActiveIsHeld(job, s, i);
    if job.config.policy == TerminalWaves {
      WaveRecordIsEvident(job, s, i, outcome);
    } else {
      NativeRecordIsEvident(job, s, i, outcome);
    }
  }

  lemma ReleaseIsEvident(job: Job, t: State, group: Group, u: State)
    requires job.config.policy == TerminalWaves && EvidentIn(job, t) && AllSafe(job.plans, t.results, group)
    requires u.results == t.results && u.pending == t.pending
    requires LessMembers(job.plans, group, |job.plans|, t.held, u.held)
    ensures EvidentIn(job, u)
  {
    hide AllSafe;
  }

  lemma CloseIsEvident(job: Job, t: State, group: Group, uncertain: bool)
    requires Closable(job, t, group) && EvidentIn(job, t) && job.config.policy == TerminalWaves
    ensures EvidentIn(job, CloseGroup(job, t, group, uncertain))
  {
    hide Closable, CloseGroup, AllSafe, Evident, LessMembers, PlusMembers, Sound, Advances;
    CloseWave(job, t, group, uncertain);
    if AllSafe(job.plans, t.results, group) && !uncertain {
      ReleaseIsEvident(job, t, group, CloseGroup(job, t, group, uncertain));
    }
  }

  lemma CompleteIsEvident(job: Job, s: State, i: nat, outcome: Outcome, uncertain: bool)
    requires Running(job, s) && EvidentIn(job, s) && i in s.active && i < |job.plans|
    ensures EvidentIn(job, Complete(job, s, i, outcome, uncertain))
  {
    hide Running, Evident, Record, Closable, CloseGroup;
    var t, group := Record(job, s, i, outcome), job.plans[i].group;
    RecordIsEvident(job, s, i, outcome);
    if t.Count(group) == GroupSize(job.plans, group, |job.plans|) {
      if job.config.policy == NativeGroups {
        NativeCloses(job, t, group, uncertain);
      } else {
        LastMemberCloses(job, s, i, outcome);
        CloseIsEvident(job, t, group, uncertain);
      }
    }
  }

  lemma NativeCloses(job: Job, t: State, group: Group, uncertain: bool)
    requires job.config.policy == NativeGroups && EvidentIn(job, t)
    ensures EvidentIn(job, CloseGroup(job, t, group, uncertain))
  {
  }

  lemma LastMemberCloses(job: Job, s: State, i: nat, outcome: Outcome)
    requires Running(job, s) && i in s.active && i < |job.plans| && job.config.policy == TerminalWaves
    requires var t := Record(job, s, i, outcome);
             t.Count(job.plans[i].group) == GroupSize(job.plans, job.plans[i].group, |job.plans|)
    ensures Closable(job, Record(job, s, i, outcome), job.plans[i].group)
  {
    var t, group := Record(job, s, i, outcome), job.plans[i].group;
    RecordRecords(job, s, i, outcome);
    RunningFacts(job, s);
    ActiveIsHeld(job, s, i);
    hide Running, OpenGroups, Holds, Sound, AllNonNegative, CloseGroup, Record, HoldsAfter;
    CountTells(job.plans, t.completed, t.results.Keys, group);
    ReadyToClose(job, s, i, t, group);
  }

  lemma {:induction false} CompletionIsEvident(job: Job, s: State, finished: seq<(nat, Outcome)>, uncertain: bool)
    requires Running(job, s) && EvidentIn(job, s)
    ensures EvidentIn(job, CompleteAll(job, s, finished, uncertain))
    decreases |finished|
  {
    hide Running, Evident, Complete, Advances;
    if finished != [] {
      var i, outcome := finished[0].0, finished[0].1;
      if i in s.active && i < |job.plans| {
        CompleteRuns(job, s, i, outcome, uncertain);
        CompleteIsEvident(job, s, i, outcome, uncertain);
        CompletionIsEvident(job, Complete(job, s, i, outcome, uncertain), finished[1..], uncertain);
      } else {
        CompletionIsEvident(job, s, finished[1..], uncertain);
      }
    }
  }

  // ----- the drain deadline

  lemma DrainedIsEvident(job: Job, s: State, t: State)
    requires EvidentIn(job, s) && Drained(job, s, |job.plans|, t)
    requires forall i :: i in s.active ==> i < |job.plans| && i in s.held
    ensures EvidentIn(job, t.(active := {}, ended := true))
  {
    hide AllSafe, Owed;
    if job.config.policy == TerminalWaves {
      WavesExtend(job, s.pending, s.results, t.results, s.held);
    }
  }

  lemma DrainIsEvident(job: Job, s: State)
    requires Running(job, s) && EvidentIn(job, s)
    ensures EvidentIn(job, Drain(job, s))
  {
    hide Running, Sound, Drained, Conserved, Named, Holds, Owed, DrainFrom, Counted, OpenGroups, AllNonNegative, Evident;
    RunningFacts(job, s);
    OwedIsHeld(job, s);
    NothingDrained(job, s);
    DrainFromKeeps(job, s, 0, s);
    forall i | i in s.active ensures i < |job.plans| && i in s.held {
      ActiveIsHeld(job, s, i);
    }
    DrainedIsEvident(job, s, DrainFrom(job, s, 0));
  }

  // ----- runs

  lemma FlagsLeaveEvidence(job: Job, s: State, stopped: bool, cancelled: bool, ended: bool)
    requires EvidentIn(job, s)
    ensures EvidentIn(job, s.(stopped := stopped, cancelled := cancelled, ended := ended))
  {
  }

  lemma IterationIsEvident(job: Job, s: State, round: Round)
    requires Running(job, s) && !s.ended && EvidentIn(job, s)
    requires forall i :: i in s.pending ==> i < |job.plans|
    ensures EvidentIn(job, Iterate(job, s, round))
  {
    hide Running, EvidentIn, AdmitPhase, Drain, CompleteAll, Phased, Ended;
    var noticed := Notice(s, round);
    NoticeRuns(job, s, round);
    FlagsLeaveEvidence(job, s, noticed.stopped, noticed.cancelled, noticed.ended);
    var ready := AdmitPhase(job, noticed, round);
    AdmitPhaseRuns(job, noticed, round);
    AdmissionIsEvident(job, noticed, round);
    FlagsLeaveEvidence(job, ready, ready.stopped, ready.cancelled, true);
    FlagsLeaveEvidence(job, ready, ready.stopped, true, ready.ended);
    if !ready.ended {
      PhasedRuns(job, noticed, round, ready);
      DrainIsEvident(job, ready);
      CompletionIsEvident(job, ready, round.finished, round.closureUncertain);
      var next := CompleteAll(job, ready, round.finished, round.closureUncertain);
      FlagsLeaveEvidence(job, next, next.stopped, next.cancelled, next.pending == {} && next.active == {});
    }
  }

  lemma PhasedRuns(job: Job, s: State, round: Round, t: State)
    requires Phased(job, s, round, t) && !t.ended
    ensures Running(job, t)
  {
    hide Running, Ended, Round.Benign;
  }

  lemma LaunchIsEvident(job: Job, started: bool)
    ensures EvidentIn(job, Launch(job, started))
  {
  }

  lemma SafeRunning(job: Job, s: State)
    requires Safe(job, s) && !s.ended
    ensures Running(job, s)
  {
    hide Running, Ended;
  }

  lemma {:induction false} RunIsEvident(job: Job, started: bool, rounds: seq<Round>)
    requires Admissible(job.config, job.plans)
    ensures EvidentIn(job, Run(job, started, rounds))
    decreases |rounds|
  {
    hide Admissible, Safe, Iterate, EvidentIn, Running;
    if rounds == [] {
      LaunchIsEvident(job, started);
    } else {
      var front := Run(job, started, rounds[..|rounds| - 1]);
      RunIsEvident(job, started, rounds[..|rounds| - 1]);
      SafeIsInRange(job, front);
      if front.ended {
        EndedStands(job, front, rounds[|rounds| - 1]);
      } else {
        SafeRunning(job, front);
        IterationIsEvident(job, front, rounds[|rounds| - 1]);
      }
    }
  }

  lemma EndedStands(job: Job, s: State, round: Round)
    requires s.ended && forall i :: i in s.pending ==> i < |job.plans|
    ensures Iterate(job, s, round) == s
  {
  }

  /** A finished plan without proof of its cleanup keeps its charge for good, under both policies and however the
      run ends. Under native groups every other finished plan's charge has been released. */
  lemma UnprovenStaysReserved(job: Job, started: bool, rounds: seq<Round>, i: nat)
    requires Admissible(job.config, job.plans) && i in Run(job, started, rounds).results && i < |job.plans|
    ensures var s := Run(job, started, rounds);
            var outcome := s.results[i].outcome;
            && (outcome.cleanup == Unknown || outcome.uncertain ==> i in s.held)
            && (job.config.policy == NativeGroups && outcome.cleanup != Unknown && !outcome.uncertain ==> i !in s.held)
  {
    hide Run, Admissible;
    RunIsEvident(job, started, rounds);
    var s := Run(job, started, rounds);
    SafePending(job, s);
  }

  lemma SafePending(job: Job, s: State)
    requires Safe(job, s)
    ensures s.pending !! s.results.Keys
  {
    hide Conserved, Once, Named, OpenGroups, Counted, Whole, Holds;
  }

  /** A wave's charges are released only once all its members have results that prove their cleanup. */
  lemma WavesReleaseOnlyProven(job: Job, started: bool, rounds: seq<Round>, i: nat)
    requires Admissible(job.config, job.plans) && job.config.policy == TerminalWaves && i < |job.plans|
    requires i !in Run(job, started, rounds).held && i !in Run(job, started, rounds).pending
    ensures AllSafe(job.plans, Run(job, started, rounds).results, job.plans[i].group)
  {
    hide Run, Admissible;
    RunIsEvident(job, started, rounds);
  }
}
