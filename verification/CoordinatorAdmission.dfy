/** Admission keeps the invariants, and leaves the run idle only when nothing is waiting. */
module CoordinatorAdmission {
  import opened Resources
  import opened CoordinatorSpec
  import opened CoordinatorInvariants

  /** Admission touches nothing but admission. */
  ghost predicate SameButAdmissions(s: State, t: State) {
    && t.quarantined == s.quarantined && t.results == s.results && t.completed == s.completed
    && t.stopped == s.stopped && t.cancelled == s.cancelled && t.draining == s.draining && t.ended == s.ended
    && t.quarantine == s.quarantine && s.active <= t.active && t.pending <= s.pending && s.admitted <= t.admitted
  }

  lemma AdmitIsSound(job: Job, s: State, i: nat)
    requires Sound(job, s) && i in s.pending && i < |job.plans|
    requires WithinCapacity(Credit(s.reserved, job.plans[i].requirement), job.config.capacities)
    ensures Sound(job, Admit(job, s, i))
  {
    hide Balanced;
    ChargeBalanced(Requirements(job.plans), job.config.capacities, s.reserved, s.held, s.quarantined, s.quarantine, i);
  }

  lemma AdmitOpens(plans: seq<Plan>, pending: set<nat>, finished: set<nat>, heldGroups: set<Group>, i: nat)
    requires OpenGroups(plans, pending, finished, heldGroups)
    requires i in pending && i !in finished && i < |plans|
    ensures OpenGroups(plans, pending - {i}, finished, WithGroup(heldGroups, plans[i].group))
  {
    forall g ensures g in WithGroup(heldGroups, plans[i].group) <==> Open(plans, pending - {i}, finished, g) {
      if g == plans[i].group {
        assert i !in pending - {i};
      } else {
        assert Open(plans, pending, finished, g) <==> Open(plans, pending - {i}, finished, g);
      }
    }
  }

  lemma WaitingIsNeither(job: Job, s: State, i: nat)
    requires Sound(job, s) && i in s.pending
    ensures i < |job.plans| && i !in s.active && i !in s.results && i !in s.held
    ensures WithinCapacity(s.reserved, job.config.capacities)
  {
  }

  lemma AdmitHolds(job: Job, s: State, i: nat)
    requires job.config.policy == NativeGroups && i < |job.plans|
    requires Holds(job, s.active, s.results.Keys, s.heldGroups, s.held, s.quarantine)
    ensures var t := Admit(job, s, i); Holds(job, t.active, t.results.Keys, t.heldGroups, t.held, t.quarantine)
  {
    hide Credit;
  }

  lemma AdmitWithinLimits(job: Job, s: State, i: nat)
    requires i < |job.plans| && |s.active| < job.config.maxWorkers && |s.heldGroups| <= job.config.maxGroups
    requires job.plans[i].group in s.heldGroups || |s.heldGroups| < job.config.maxGroups
    ensures var t := Admit(job, s, i); |t.active| <= job.config.maxWorkers && |t.heldGroups| <= job.config.maxGroups
  {
    hide Credit;
  }

  /** Admitting one plan under native groups, within every limit. */
  lemma AdmitNativeRuns(job: Job, s: State, i: nat)
    requires Running(job, s) && job.config.policy == NativeGroups && i in s.pending && i < |job.plans|
    requires |s.active| < job.config.maxWorkers
    requires job.plans[i].group in s.heldGroups || |s.heldGroups| < job.config.maxGroups
    requires Fits(s.reserved, job.config.capacities, job.plans[i].requirement)
    ensures Running(job, Admit(job, s, i))
  {
    hide Open, CountIn, OpenGroups, Counted, Credit, Sound, WithinCapacity, Balance, Holds, Fits, Admissible;
    WaitingIsNeither(job, s, i);
    CreditWithin(s.reserved, job.config.capacities, job.plans[i].requirement);
    AdmitIsSound(job, s, i);
    AdmitOpens(job.plans, s.pending, s.results.Keys, s.heldGroups, i);
    AdmitHolds(job, s, i);
    AdmitWithinLimits(job, s, i);
  }

  /** With nothing running and nothing quarantined, every plan that passed validation fits. */
  lemma FitsWhenIdle(job: Job, s: State, i: nat)
    requires Admissible(job.config, job.plans) && Conserved(job, s) && s.held == {} && i < |job.plans|
    ensures Fits(s.reserved, job.config.capacities, job.plans[i].requirement)
  {
    forall a ensures Balance(s.reserved, a) == 0.0 {
      NothingHeld(s.reserved, Requirements(job.plans), a);
    }
    assert Fits(map[], job.config.capacities, job.plans[i].requirement);
  }

  ghost predicate Idle(s: State) {
    s.active == {}
  }

  /** While nothing runs, each plan passed over belongs to a group without a slot. */
  ghost predicate PassedOver(job: Job, scan: Scan, i: nat) {
    Idle(scan.state) ==>
      && scan.blocked == {}
      && forall j :: j in scan.state.pending && j < i && j < |job.plans| ==>
           job.plans[j].group !in scan.state.heldGroups && 1 <= |scan.state.heldGroups|
  }

  lemma ConsiderPassesOver(job: Job, scan: Scan, i: nat)
    requires i < |job.plans| && 1 <= job.config.maxGroups
    requires PassedOver(job, scan, i)
    requires Idle(scan.state) ==> Fits(scan.state.reserved, job.config.capacities, job.plans[i].requirement)
    ensures PassedOver(job, Consider(job, scan, i), i + 1)
  {
    hide Fits, Credit;
  }

  lemma AdmitOnlyAdmits(job: Job, s: State, i: nat)
    requires i < |job.plans|
    ensures SameButAdmissions(s, Admit(job, s, i))
  {
    hide Credit, WithGroup;
  }

  lemma ConsiderRuns(job: Job, scan: Scan, i: nat)
    requires Running(job, scan.state) && job.config.policy == NativeGroups
    requires i < |job.plans| && |scan.state.active| < job.config.maxWorkers
    ensures Running(job, Consider(job, scan, i).state)
    ensures SameButAdmissions(scan.state, Consider(job, scan, i).state)
  {
    hide Fits, Running, Admit, SameButAdmissions;
    SameAdmissions(scan.state);
    AdmitOnlyAdmits(job, scan.state, i);
    if Consider(job, scan, i).state != scan.state {
      AdmitNativeRuns(job, scan.state, i);
    }
  }

  lemma SameAdmissions(s: State)
    ensures SameButAdmissions(s, s)
  {
  }

  lemma IdleFits(job: Job, s: State, i: nat)
    requires Running(job, s) && job.config.policy == NativeGroups && !s.stopped && Idle(s) && i < |job.plans|
    ensures Fits(s.reserved, job.config.capacities, job.plans[i].requirement) && 1 <= job.config.maxGroups
  {
    FitsWhenIdle(job, s, i);
  }

  lemma LimitsArePositive(job: Job, s: State)
    requires Running(job, s)
    ensures 1 <= job.config.maxGroups && 1 <= job.config.maxWorkers
  {
  }

  lemma {:induction false} NativeScanRuns(job: Job, scan: Scan, i: nat)
    requires Running(job, scan.state) && job.config.policy == NativeGroups && !scan.state.stopped
    requires i <= |job.plans|
    requires PassedOver(job, scan, i)
    ensures Running(job, AdmitNative(job, scan, i))
    ensures SameButAdmissions(scan.state, AdmitNative(job, scan, i))
    ensures Idle(AdmitNative(job, scan, i)) ==> AdmitNative(job, scan, i).pending == {}
    decreases |job.plans| - i
  {
    hide Consider, Running, PassedOver, Fits;
    if i == |job.plans| || |scan.state.active| >= job.config.maxWorkers {
      IdleScanIsEmpty(job, scan);
    } else {
      ConsiderRuns(job, scan, i);
      if Idle(scan.state) {
        IdleFits(job, scan.state, i);
      }
      LimitsArePositive(job, scan.state);
      ConsiderPassesOver(job, scan, i);
      NativeScanRuns(job, Consider(job, scan, i), i + 1);
    }
  }

  /** A scan that passed over every waiting plan for want of a group slot found something running: a held
      group with nothing running still has a waiting member. */
  lemma IdleScanIsEmpty(job: Job, scan: Scan)
    requires Running(job, scan.state)
    requires |scan.state.active| >= job.config.maxWorkers || PassedOver(job, scan, |job.plans|)
    ensures Idle(scan.state) ==> scan.state.pending == {}
  {
    var s := scan.state;
    assert forall g :: g in s.heldGroups ==> Open(job.plans, s.pending, s.results.Keys, g);
  }

  // ----- waves

  predicate Member(plans: seq<Plan>, group: Group, i: int) {
    0 <= i < |plans| && plans[i].group == group
  }

  lemma {:induction false} GroupChargeGrows(plans: seq<Plan>, group: Group, n: nat, m: nat, account: Account)
    requires n <= m <= |plans| && AllNonNegative(Requirements(plans))
    ensures 0.0 <= Balance(GroupCharge(plans, group, n), account) <= Balance(GroupCharge(plans, group, m), account)
  {
    if m > 0 {
      assert Requirements(plans)[m - 1].NonNegative();
      if n < m {
        GroupChargeGrows(plans, group, n, m - 1, account);
      } else {
        GroupChargeGrows(plans, group, n - 1, m - 1, account);
      }
    }
  }

  /** With nothing reserved before, this much is reserved once the members below n are admitted. */
  ghost predicate WaveCharged(plans: seq<Plan>, group: Group, n: nat, reserved: Ledger)
    requires n <= |plans|
  {
    forall a :: Balance(reserved, a) == Balance(GroupCharge(plans, group, n), a)
  }

  ghost predicate Unreserved(reserved: Ledger) {
    forall a :: Balance(reserved, a) == 0.0
  }

  lemma ChargeNext(plans: seq<Plan>, group: Group, i: nat, reserved: Ledger)
    requires i < |plans| && Member(plans, group, i) && WaveCharged(plans, group, i, reserved)
    ensures WaveCharged(plans, group, i + 1, Credit(reserved, plans[i].requirement))
  {
  }

  /** Every part of a wave that fits fits. */
  lemma PartOfWaveFits(job: Job, group: Group, n: nat, reserved: Ledger)
    requires job.config.Valid() && AllNonNegative(Requirements(job.plans)) && n <= |job.plans|
    requires LedgerWithin(GroupCharge(job.plans, group, |job.plans|), job.config.capacities)
    requires WaveCharged(job.plans, group, n, reserved)
    ensures WithinCapacity(reserved, job.config.capacities)
  {
    hide GroupCharge;
    forall a: Account | a.executor in job.config.capacities
      ensures Balance(reserved, a) <= job.config.capacities[a.executor].Of(a.quantity)
    {
      GroupChargeGrows(job.plans, group, n, |job.plans|, a);
      assert job.config.capacities[a.executor].NonNegative();
    }
  }

  /** Set b is set a with the group's members below n added. */
  ghost predicate PlusMembers(plans: seq<Plan>, group: Group, n: nat, a: set<nat>, b: set<nat>) {
    forall i :: i in b <==> i in a || (i < n && Member(plans, group, i))
  }

  ghost predicate LessMembers(plans: seq<Plan>, group: Group, n: nat, a: set<nat>, b: set<nat>) {
    forall i :: i in b <==> i in a && !(i < n && Member(plans, group, i))
  }

  /** The admitted part of a wave: exactly its members below n have moved from waiting to running. */
  ghost predicate WaveAdmitted(job: Job, s: State, group: Group, n: nat, t: State)
    requires n <= |job.plans|
  {
    && SameButAdmissions(s, t)
    && LessMembers(job.plans, group, n, s.pending, t.pending)
    && PlusMembers(job.plans, group, n, s.active, t.active)
    && PlusMembers(job.plans, group, n, s.held, t.held)
    && |t.active| == |s.active| + GroupSize(job.plans, group, n)
    && t.heldGroups == (if GroupSize(job.plans, group, n) == 0 then s.heldGroups else WithGroup(s.heldGroups, group))
  }

  lemma {:induction false} AdmitMembersMoves(job: Job, s: State, group: Group, n: nat)
    requires n <= |job.plans|
    requires forall i :: Member(job.plans, group, i) ==> i in s.pending && i !in s.active
    ensures WaveAdmitted(job, s, group, n, AdmitMembers(job, s, group, n))
  {
    if n > 0 {
      AdmitMembersMoves(job, s, group, n - 1);
      if Member(job.plans, group, n - 1) {
        WaveStep(job, s, group, n - 1, AdmitMembers(job, s, group, n - 1));
      }
    }
  }

  lemma {:induction false} AdmitMembersKeeps(job: Job, s: State, group: Group, n: nat)
    requires job.config.Valid() && AllNonNegative(Requirements(job.plans)) && n <= |job.plans|
    requires LedgerWithin(GroupCharge(job.plans, group, |job.plans|), job.config.capacities)
    requires Sound(job, s) && forall i :: Member(job.plans, group, i) ==> i in s.pending && i !in s.active
    requires Unreserved(s.reserved)
    ensures var t := AdmitMembers(job, s, group, n);
            Sound(job, t) && WaveCharged(job.plans, group, n, t.reserved)
  {
    hide LedgerWithin, AllNonNegative, WithinCapacity, Credit, Sound, WaveAdmitted;
    if n > 0 {
      var t := AdmitMembers(job, s, group, n - 1);
      AdmitMembersKeeps(job, s, group, n - 1);
      if Member(job.plans, group, n - 1) {
        ChargeNext(job.plans, group, n - 1, t.reserved);
        PartOfWaveFits(job, group, n, Credit(t.reserved, job.plans[n - 1].requirement));
        NextIsWaiting(job, s, group, n - 1);
        AdmitIsSound(job, t, n - 1);
      }
    }
  }

  lemma NextIsWaiting(job: Job, s: State, group: Group, i: nat)
    requires i < |job.plans| && Member(job.plans, group, i)
    requires forall j :: Member(job.plans, group, j) ==> j in s.pending && j !in s.active
    ensures i in AdmitMembers(job, s, group, i).pending
  {
    AdmitMembersMoves(job, s, group, i);
  }

  lemma WaveStep(job: Job, s: State, group: Group, i: nat, t: State)
    requires i < |job.plans| && Member(job.plans, group, i) && i in s.pending && i !in s.active
    requires WaveAdmitted(job, s, group, i, t)
    ensures WaveAdmitted(job, s, group, i + 1, Admit(job, t, i))
  {
    hide Credit;
  }

  /** With no wave held nothing runs, and before anything was quarantined nothing is reserved. */
  lemma NoWaveMeansIdle(job: Job, s: State)
    requires Running(job, s) && job.config.policy == TerminalWaves && s.heldGroups == {}
    ensures s.active == {} && s.held == s.quarantine
    ensures !s.stopped ==> s.held == {} && Unreserved(s.reserved)
  {
    forall i ensures i !in s.active {
      if i in s.active {
        assert Open(job.plans, s.pending, s.results.Keys, job.plans[i].group);
      }
    }
    assert forall i :: i in s.held <==> i in s.quarantine;
    if s.held == {} {
      forall a ensures Balance(s.reserved, a) == 0.0 {
        NothingHeld(s.reserved, Requirements(job.plans), a);
      }
    }
  }

  /** A held wave has a member running: waves are admitted whole. */
  lemma HeldWaveRuns(job: Job, s: State)
    requires Running(job, s) && job.config.policy == TerminalWaves && s.heldGroups != {}
    ensures s.active != {}
  {
    var g :| g in s.heldGroups;
    assert Open(job.plans, s.pending, s.results.Keys, g);
    var i: nat :| i < |job.plans| && job.plans[i].group == g && i !in s.pending;
    var j: nat :| j < |job.plans| && job.plans[j].group == g && j !in s.results;
    assert j in s.active;
  }

  /** One more wave held, none of whose members has finished. */
  lemma WaveOpens(
    plans: seq<Plan>, pending: set<nat>, finished: set<nat>, group: Group, now: set<nat>, first: nat)
    requires OpenGroups(plans, pending, finished, {})
    requires LessMembers(plans, group, |plans|, pending, now)
    requires first < |plans| && plans[first].group == group && first !in finished
    ensures OpenGroups(plans, now, finished, {group})
  {
    assert first !in now;
    assert Open(plans, now, finished, group);
    forall g | g != group ensures !Open(plans, now, finished, g) {
      assert !Open(plans, pending, finished, g);
    }
  }

  lemma WaveIsWhole(job: Job, pending: set<nat>, group: Group, now: set<nat>)
    requires Whole(job, pending) && LessMembers(job.plans, group, |job.plans|, pending, now)
    ensures Whole(job, now)
  {
  }

  lemma FirstWaveRuns(job: Job, s: State, first: nat)
    requires Running(job, s) && job.config.policy == TerminalWaves && s.heldGroups == {} && !s.stopped
    requires first in s.pending && first < |job.plans|
    ensures var t := AdmitMembers(job, s, job.plans[first].group, |job.plans|);
            Running(job, t) && SameButAdmissions(s, t) && t.active != {}
  {
    hide Open, CountIn, OpenGroups, Counted, AllNonNegative, Sound, GroupCharge, Fits, LedgerWithin;
    var group := job.plans[first].group;
    var t := AdmitMembers(job, s, group, |job.plans|);
    NoWaveMeansIdle(job, s);
    assert WaveFits(job.config, job.plans, group);
    assert forall i :: Member(job.plans, group, i) ==> (i in s.pending <==> first in s.pending);
    AdmitMembersKeeps(job, s, group, |job.plans|);
    AdmitMembersMoves(job, s, group, |job.plans|);
    WaitingIsNeither(job, s, first);
    assert first in t.active;
    SizeOfMember(job.plans, first, |job.plans|);
    WaveOpens(job.plans, s.pending, s.results.Keys, group, t.pending, first);
    WaveIsWhole(job, s.pending, group, t.pending);
  }

  lemma {:induction false} SizeOfMember(plans: seq<Plan>, i: nat, n: nat)
    requires i < n <= |plans|
    ensures 1 <= GroupSize(plans, plans[i].group, n)
  {
    if i < n - 1 {
      SizeOfMember(plans, i, n - 1);
    }
  }

  /** Stopping, for whatever reason, keeps the invariants. */
  lemma HaltRuns(job: Job, s: State)
    requires Running(job, s)
    ensures Running(job, Halt(s)) && Running(job, Cancel(s))
  {
    hide Admissible, Balanced, OpenGroups, Counted, Whole, Once, Named, Holds;
  }

  lemma CancelEnds(job: Job, s: State)
    requires Running(job, s) && s.active == {} && s.held == s.quarantine
    ensures Ended(job, Cancel(s).(ended := true))
  {
    hide Balanced, Once, Named;
  }

  /** What the admission phase did. A benign one either finds something to run or leaves nothing waiting. */
  ghost predicate Phased(job: Job, s: State, round: Round, t: State) {
    && (if t.ended then Ended(job, t) else Running(job, t))
    && t.quarantined == s.quarantined && t.results == s.results && t.quarantine == s.quarantine
    && s.admitted <= t.admitted && t.pending <= s.pending
    && (s.stopped ==> t == s)
    && (s.cancelled ==> t.cancelled)
    && (round.Benign() ==> t.stopped == s.stopped && t.cancelled == s.cancelled && !t.ended)
    && (round.Benign() && !s.stopped && t.active == {} ==> t.pending == {})
  }

  lemma AdmissionsPhased(job: Job, s: State, round: Round, t: State)
    requires Running(job, s) && !s.ended && !s.stopped
    requires Running(job, t) && SameButAdmissions(s, t) && (t.active == {} ==> t.pending == {})
    ensures Phased(job, s, round, t)
  {
    hide Running, Round.Benign;
  }

  lemma PreventedPhased(job: Job, s: State, round: Round)
    requires Running(job, s) && !s.ended && !s.stopped && !round.Benign()
    requires s.active == {} && s.held == s.quarantine
    ensures Phased(job, s, round, Halt(s)) && Phased(job, s, round, Cancel(s))
    ensures Phased(job, s, round, Cancel(s).(ended := true))
  {
    HaltRuns(job, s);
    CancelEnds(job, s);
    hide Running, Round.Benign, Ended;
  }

  lemma AdmitWavePhased(job: Job, s: State, round: Round)
    requires Running(job, s) && !s.ended && !s.stopped && job.config.policy == TerminalWaves
    requires forall i :: i in s.pending ==> i < |job.plans|
    ensures Phased(job, s, round, AdmitWave(job, s, round))
  {
    hide Running, Phased, AdmitMembers;
    if s.heldGroups != {} {
      HeldWaveRuns(job, s);
      AdmissionsPhased(job, s, round, s);
    } else if s.pending == {} {
      AdmissionsPhased(job, s, round, s);
    } else {
      NoWaveMeansIdle(job, s);
      if !round.Benign() {
        PreventedPhased(job, s, round);
      }
      FirstWaveRuns(job, s, First(job, s.pending));
      AdmissionsPhased(job, s, round, AdmitMembers(job, s, job.plans[First(job, s.pending)].group, |job.plans|));
    }
  }

  lemma PendingInRange(job: Job, s: State)
    requires Running(job, s)
    ensures forall i :: i in s.pending ==> i < |job.plans|
    ensures s.active !! s.results.Keys && forall i :: i in s.active ==> i < |job.plans|
  {
  }

  lemma AdmitPhaseRuns(job: Job, s: State, round: Round)
    requires Running(job, s) && !s.ended
    requires forall i :: i in s.pending ==> i < |job.plans|
    ensures Phased(job, s, round, AdmitPhase(job, s, round))
  {
    if s.stopped {
      hide Running;
    } else if job.config.policy == NativeGroups {
      hide Running, Phased;
      NativeScanRuns(job, Scan(s, {}), 0);
      AdmissionsPhased(job, s, round, AdmitNative(job, Scan(s, {}), 0));
    } else {
      hide Running, Phased;
      AdmitWavePhased(job, s, round);
    }
  }
}
