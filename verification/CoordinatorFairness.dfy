/** Which waiting plans native admission passes over: it lets nothing overtake on an executor, and leaves no plan
    waiting that could run. */
module CoordinatorFairness {
  import opened Resources
  import opened CoordinatorSpec

  predicate NoSlot(job: Job, s: State, i: nat)
    requires i < |job.plans|
  {
    job.plans[i].group !in s.heldGroups && |s.heldGroups| >= job.config.maxGroups
  }

  predicate SameExecutor(job: Job, i: nat, j: nat)
    requires i < |job.plans| && j < |job.plans|
  {
    job.plans[i].requirement.executor == job.plans[j].requirement.executor
  }

  // ----- what a scan leaves alone

  lemma {:induction false} ScanShrinks(job: Job, scan: Scan, c: nat)
    requires c <= |job.plans|
    ensures AdmitNative(job, scan, c).pending <= scan.state.pending
    ensures forall i :: i in scan.state.pending && i < c ==> i in AdmitNative(job, scan, c).pending
    decreases |job.plans| - c
  {
    hide Fits, Credit, WithGroup;
    if c < |job.plans| && |scan.state.active| < job.config.maxWorkers {
      ScanShrinks(job, Consider(job, scan, c), c + 1);
    }
  }

  /** Without a free slot no group gets one. */
  lemma {:induction false} FullStaysFull(job: Job, scan: Scan, c: nat)
    requires c <= |job.plans| && |scan.state.heldGroups| >= job.config.maxGroups
    ensures AdmitNative(job, scan, c).heldGroups == scan.state.heldGroups
    decreases |job.plans| - c
  {
    hide Fits, Credit;
    if c < |job.plans| && |scan.state.active| < job.config.maxWorkers {
      FullStaysFull(job, Consider(job, scan, c), c + 1);
    }
  }

  /** Nothing more is admitted on a blocked executor. */
  lemma {:induction false} BlockedStays(job: Job, scan: Scan, c: nat, j: nat)
    requires c <= j < |job.plans| && j in scan.state.pending && job.plans[j].requirement.executor in scan.blocked
    ensures j in AdmitNative(job, scan, c).pending
    decreases |job.plans| - c
  {
    hide Fits, Credit, WithGroup;
    if |scan.state.active| < job.config.maxWorkers {
      if c == j {
        ScanShrinks(job, Consider(job, scan, c), c + 1);
      } else {
        BlockedStays(job, Consider(job, scan, c), c + 1, j);
      }
    }
  }

  // ----- no overtaking

  lemma {:induction false} NoOvertakingFrom(job: Job, scan: Scan, c: nat, i: nat, j: nat)
    requires c <= i < j < |job.plans| && SameExecutor(job, i, j) && i in scan.state.pending && j in scan.state.pending
    requires i in AdmitNative(job, scan, c).pending && j !in AdmitNative(job, scan, c).pending
    ensures NoSlot(job, AdmitNative(job, scan, c), i)
    decreases |job.plans| - c
  {
    hide Consider, AdmitNative;
    ScanStep(job, scan, c);
    ConsiderLeaves(job, scan, c);
    var next := Consider(job, scan, c);
    if c < i {
      NoOvertakingFrom(job, next, c + 1, i, j);
    } else {
      WhyPassed(job, scan, c);
      if NoSlot(job, scan.state, i) {
        FullStaysFull(job, next, c + 1);
      } else if job.plans[i].requirement.executor in next.blocked {
        BlockedStays(job, next, c + 1, j);
      } else {
        ScanShrinks(job, next, c + 1);
      }
    }
  }

  lemma ConsiderLeaves(job: Job, scan: Scan, c: nat)
    requires c < |job.plans|
    ensures forall j :: j in scan.state.pending && j != c ==> j in Consider(job, scan, c).state.pending
  {
    hide Fits, Credit, WithGroup;
  }

  /** A plan that is passed over has no slot or finds its executor blocked from then on. */
  lemma WhyPassed(job: Job, scan: Scan, c: nat)
    requires c < |job.plans| && c in scan.state.pending
    ensures var next := Consider(job, scan, c);
            && next.state.pending <= scan.state.pending && (forall j :: j in scan.state.pending && j != c ==> j in next.state.pending)
            && (NoSlot(job, scan.state, c) ==> next == scan)
            && (c in next.state.pending && !NoSlot(job, scan.state, c) ==> job.plans[c].requirement.executor in next.blocked)
  {
    hide Fits, Credit, WithGroup;
  }

  lemma ScanStep(job: Job, scan: Scan, c: nat)
    requires c < |job.plans|
    ensures AdmitNative(job, scan, c) ==
              if |scan.state.active| >= job.config.maxWorkers then scan.state else AdmitNative(job, Consider(job, scan, c), c + 1)
  {
  }

  /** A plan is admitted past an earlier one of its executor only if the earlier one's group had no slot. */
  lemma NoOvertaking(job: Job, s: State, i: nat, j: nat)
    requires i < j < |job.plans| && SameExecutor(job, i, j) && i in s.pending && j in s.pending
    requires i in AdmitNative(job, Scan(s, {}), 0).pending && j !in AdmitNative(job, Scan(s, {}), 0).pending
    ensures NoSlot(job, AdmitNative(job, Scan(s, {}), 0), i)
  {
    NoOvertakingFrom(job, Scan(s, {}), 0, i, j);
  }

  // ----- no idling

  /** Plan h, waiting no later than i on the same executor, lacks room. */
  predicate LacksRoom(job: Job, s: State, i: nat, h: nat)
    requires i < |job.plans|
  {
    h <= i && h in s.pending && SameExecutor(job, i, h) && !Fits(s.reserved, job.config.capacities, job.plans[h].requirement)
  }

  /** Why a plan still waits: its group has no slot, or its executor has no room for it or an earlier plan. */
  predicate Explained(job: Job, s: State, i: nat)
    requires i < |job.plans|
  {
    NoSlot(job, s, i) || exists h: nat :: h <= i && LacksRoom(job, s, i, h)
  }

  ghost predicate Witnessed(job: Job, scan: Scan, c: nat)
    requires c <= |job.plans|
  {
    && (forall i: nat :: i < c && i in scan.state.pending ==> Explained(job, scan.state, i))
    && forall e :: e in scan.blocked ==> HasBlocker(job, scan.state, c, e)
  }

  /** A charge never makes room. */
  lemma ChargingMakesNoRoom(reserved: Ledger, capacities: Capacities, charged: Requirement, requirement: Requirement)
    requires charged.NonNegative() && !Fits(reserved, capacities, requirement)
    ensures !Fits(Credit(reserved, charged), capacities, requirement)
  {
    var e := requirement.executor;
    forall q ensures Balance(Credit(reserved, charged), Account(e, q)) >= Balance(reserved, Account(e, q)) {
    }
  }

  lemma ExplanationStands(job: Job, s: State, c: nat, i: nat)
    requires c < |job.plans| && i < c && i in s.pending && Explained(job, s, i) && job.plans[c].requirement.NonNegative()
    requires job.plans[c].group in s.heldGroups || |s.heldGroups| < job.config.maxGroups
    ensures Explained(job, Admit(job, s, c), i)
  {
    hide Fits, Credit;
    if !NoSlot(job, s, i) {
      var h: nat :| h <= i && LacksRoom(job, s, i, h);
      ChargingMakesNoRoom(s.reserved, job.config.capacities, job.plans[c].requirement, job.plans[h].requirement);
      assert LacksRoom(job, Admit(job, s, c), i, h);
    }
  }

  ghost predicate BlockedBy(job: Job, s: State, c: nat, e: Executor, h: nat) {
    && h < c && h < |job.plans| && h in s.pending && job.plans[h].requirement.executor == e
    && !Fits(s.reserved, job.config.capacities, job.plans[h].requirement)
  }

  ghost predicate HasBlocker(job: Job, s: State, c: nat, e: Executor) {
    exists h: nat :: BlockedBy(job, s, c, e, h)
  }

  lemma BlockerStands(job: Job, s: State, c: nat, e: Executor)
    requires c < |job.plans| && HasBlocker(job, s, c, e) && job.plans[c].requirement.NonNegative()
    ensures HasBlocker(job, Admit(job, s, c), c + 1, e)
  {
    hide Fits, Credit, WithGroup;
    var h: nat :| BlockedBy(job, s, c, e, h);
    ChargingMakesNoRoom(s.reserved, job.config.capacities, job.plans[c].requirement, job.plans[h].requirement);
    assert BlockedBy(job, Admit(job, s, c), c + 1, e, h);
  }

  lemma BlockerLater(job: Job, s: State, c: nat, e: Executor)
    requires HasBlocker(job, s, c, e)
    ensures HasBlocker(job, s, c + 1, e)
  {
    hide Fits;
    var h: nat :| BlockedBy(job, s, c, e, h);
    assert BlockedBy(job, s, c + 1, e, h);
  }

  lemma BlockerExplains(job: Job, s: State, c: nat)
    requires c < |job.plans| && HasBlocker(job, s, c, job.plans[c].requirement.executor)
    ensures Explained(job, s, c)
  {
    hide Fits;
    var h: nat :| BlockedBy(job, s, c, job.plans[c].requirement.executor, h);
    assert LacksRoom(job, s, c, h);
  }

  lemma AdmissionWitnessed(job: Job, scan: Scan, c: nat)
    requires c < |job.plans| && Witnessed(job, scan, c) && job.plans[c].requirement.NonNegative()
    requires job.plans[c].group in scan.state.heldGroups || |scan.state.heldGroups| < job.config.maxGroups
    ensures Witnessed(job, scan.(state := Admit(job, scan.state, c)), c + 1)
  {
    hide Explained, HasBlocker, Credit, WithGroup;
    var s, t := scan.state, Admit(job, scan.state, c);
    forall i: nat | i < c + 1 && i in t.pending ensures Explained(job, t, i) {
      ExplanationStands(job, s, c, i);
    }
    forall e | e in scan.blocked ensures HasBlocker(job, t, c + 1, e) {
      BlockerStands(job, s, c, e);
    }
  }

  lemma PassingWitnessed(job: Job, scan: Scan, c: nat)
    requires c < |job.plans| && Witnessed(job, scan, c)
    requires c !in scan.state.pending || Explained(job, scan.state, c)
    ensures Witnessed(job, scan, c + 1)
  {
    hide Explained, HasBlocker;
    forall e | e in scan.blocked ensures HasBlocker(job, scan.state, c + 1, e) {
      BlockerLater(job, scan.state, c, e);
    }
  }

  lemma ConsiderWitnessed(job: Job, scan: Scan, c: nat)
    requires c < |job.plans| && Witnessed(job, scan, c) && job.plans[c].requirement.NonNegative()
    ensures Witnessed(job, Consider(job, scan, c), c + 1)
  {
    hide Explained, HasBlocker, Witnessed, Fits, Admit;
    var s, e := scan.state, job.plans[c].requirement.executor;
    if c !in s.pending {
      PassingWitnessed(job, scan, c);
    } else if NoSlot(job, s, c) {
      SlotExplains(job, s, c);
      PassingWitnessed(job, scan, c);
    } else if e in scan.blocked {
      WitnessOf(job, scan, c, e);
      BlockerExplains(job, s, c);
      PassingWitnessed(job, scan, c);
    } else if !Fits(s.reserved, job.config.capacities, job.plans[c].requirement) {
      RoomExplains(job, s, c);
      PassingWitnessed(job, scan, c);
      NowBlocked(job, scan, c);
    } else {
      AdmissionWitnessed(job, scan, c);
    }
  }

  lemma SlotExplains(job: Job, s: State, c: nat)
    requires c < |job.plans| && NoSlot(job, s, c)
    ensures Explained(job, s, c)
  {
  }

  lemma WitnessOf(job: Job, scan: Scan, c: nat, e: Executor)
    requires c <= |job.plans| && Witnessed(job, scan, c) && e in scan.blocked
    ensures HasBlocker(job, scan.state, c, e)
  {
  }

  lemma RoomExplains(job: Job, s: State, c: nat)
    requires c < |job.plans| && c in s.pending && !Fits(s.reserved, job.config.capacities, job.plans[c].requirement)
    ensures Explained(job, s, c)
  {
    hide Fits;
    assert LacksRoom(job, s, c, c);
  }

  lemma NowBlocked(job: Job, scan: Scan, c: nat)
    requires c < |job.plans| && Witnessed(job, scan, c + 1) && c in scan.state.pending
    requires !Fits(scan.state.reserved, job.config.capacities, job.plans[c].requirement)
    ensures Witnessed(job, scan.(blocked := scan.blocked + {job.plans[c].requirement.executor}), c + 1)
  {
    hide Fits, Explained;
    assert BlockedBy(job, scan.state, c + 1, job.plans[c].requirement.executor, c);
  }

  lemma {:induction false} ScanWitnessed(job: Job, scan: Scan, c: nat)
    requires c <= |job.plans| && Witnessed(job, scan, c) && AllNonNegative(Requirements(job.plans))
    ensures var t := AdmitNative(job, scan, c);
            |t.active| < job.config.maxWorkers ==> forall i: nat :: i < |job.plans| && i in t.pending ==> Explained(job, t, i)
    decreases |job.plans| - c
  {
    hide Explained, HasBlocker, Consider;
    if c < |job.plans| && |scan.state.active| < job.config.maxWorkers {
      assert Requirements(job.plans)[c].NonNegative();
      ConsiderWitnessed(job, scan, c);
      ScanWitnessed(job, Consider(job, scan, c), c + 1);
    }
  }

  /** After native admission, as long as a worker is free, a plan waits only for want of a group slot, or because
      its executor has no room for it or for an earlier plan in the same queue. */
  lemma NothingIdles(job: Job, s: State, i: nat)
    requires AllNonNegative(Requirements(job.plans)) && i < |job.plans|
    requires |AdmitNative(job, Scan(s, {}), 0).active| < job.config.maxWorkers && i in AdmitNative(job, Scan(s, {}), 0).pending
    ensures Explained(job, AdmitNative(job, Scan(s, {}), 0), i)
  {
    hide Explained, AdmitNative;
    ScanWitnessed(job, Scan(s, {}), 0);
  }
}
