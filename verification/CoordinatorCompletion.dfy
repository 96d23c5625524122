/** Completions, wave closures and the drain deadline keep the books. */
module CoordinatorCompletion {
  import opened Basics
  import opened Resources
  import opened CoordinatorSpec
  import opened CoordinatorInvariants
  import opened CoordinatorAdmission

  // ----- one result

  lemma ReleaseIsSound(job: Job, s: State, i: nat)
    requires Sound(job, s) && i in s.held && i !in s.quarantine && i < |job.plans|
    requires AllNonNegative(Requirements(job.plans))
    ensures Sound(job, Release(job, s, i))
  {
    hide Balanced;
    ReleaseBalanced(Requirements(job.plans), job.config.capacities, s.reserved, s.held, s.quarantined, s.quarantine, i);
  }

  lemma QuarantineIsSound(job: Job, s: State, i: nat)
    requires Sound(job, s) && i in s.held && i !in s.quarantine && i < |job.plans|
    ensures Sound(job, Quarantine(job, s, i))
  {
    hide Balanced;
    QuarantineBalanced(Requirements(job.plans), job.config.capacities, s.reserved, s.held, s.quarantined, s.quarantine, i);
  }

  lemma CountedNext(plans: seq<Plan>, completed: map<Group, nat>, finished: set<nat>, i: nat)
    requires Counted(plans, completed, finished) && i < |plans| && i !in finished
    ensures Counted(plans, completed[plans[i].group := Tally(completed, plans[i].group) + 1], finished + {i})
  {
    var next := completed[plans[i].group := Tally(completed, plans[i].group) + 1];
    forall g ensures Tally(next, g) == CountIn(plans, g, finished + {i}, |plans|) {
      CountAdds(plans, g, finished, i, |plans|);
    }
  }

  /** A running plan is charged, unquarantined and unfinished. */
  lemma ActiveIsHeld(job: Job, s: State, i: nat)
    requires Running(job, s) && i in s.active
    ensures i < |job.plans| && i in s.held && i !in s.quarantine && i !in s.results && i !in s.pending
    ensures job.plans[i].group in s.heldGroups
  {
    assert Open(job.plans, s.pending, s.results.Keys, job.plans[i].group);
  }

  lemma ObserveIsSound(job: Job, s: State, i: nat, outcome: Outcome)
    requires Sound(job, s) && i in s.active && i < |job.plans|
    ensures Sound(job, Observe(job, s, i, outcome))
    ensures Observe(job, s, i, outcome).results.Keys == s.results.Keys + {i}
  {
    hide Balanced, Once;
  }

  lemma RecordIsSound(job: Job, s: State, i: nat, outcome: Outcome)
    requires Sound(job, s) && i in s.active && i < |job.plans| && i in s.held && i !in s.quarantine
    requires AllNonNegative(Requirements(job.plans))
    ensures Sound(job, Record(job, s, i, outcome))
  {
    ObserveIsSound(job, s, i, outcome);
    hide Sound;
    if job.config.policy == NativeGroups {
      if outcome.Safe() {
        ReleaseIsSound(job, Observe(job, s, i, outcome), i);
      } else {
        QuarantineIsSound(job, Observe(job, s, i, outcome), i);
      }
    }
  }

  /** Whose charges are held after a result is recorded, before its group may close. */
  ghost predicate HoldsAfter(job: Job, s: State, i: nat, t: State)
    requires i < |job.plans|
  {
    match job.config.policy
    case NativeGroups => t.held == t.active + t.quarantine && t.quarantine <= s.quarantine + {i}
    case TerminalWaves => t.held == s.held && t.quarantine == s.quarantine
  }

  lemma RecordHolds(job: Job, s: State, i: nat, outcome: Outcome)
    requires i in s.active && i < |job.plans| && i !in s.quarantine
    requires job.config.policy == NativeGroups ==> s.held == s.active + s.quarantine
    requires s.quarantine != {} ==> s.stopped
    ensures HoldsAfter(job, s, i, Record(job, s, i, outcome))
    ensures var t := Record(job, s, i, outcome); t.quarantine != {} ==> t.stopped
  {
    hide Credit, Debit, Outcome.Safe;
  }

  // ----- closing a group

  lemma StillOpen(plans: seq<Plan>, pending: set<nat>, finished: set<nat>, heldGroups: set<Group>, i: nat)
    requires OpenGroups(plans, pending, finished, heldGroups)
    requires i < |plans| && i !in pending && plans[i].group in heldGroups
    ensures forall g :: g != plans[i].group ==> (g in heldGroups <==> Open(plans, pending, finished + {i}, g))
    ensures (exists j: nat :: j < |plans| && plans[j].group == plans[i].group && j !in finished + {i})
            <==> Open(plans, pending, finished + {i}, plans[i].group)
  {
    forall g | g != plans[i].group ensures g in heldGroups <==> Open(plans, pending, finished + {i}, g) {
      assert Open(plans, pending, finished, g) <==> Open(plans, pending, finished + {i}, g);
    }
  }

  lemma GroupsAfter(plans: seq<Plan>, pending: set<nat>, finished: set<nat>, heldGroups: set<Group>, i: nat, all: bool)
    requires OpenGroups(plans, pending, finished, heldGroups)
    requires i < |plans| && i !in pending && plans[i].group in heldGroups
    requires all <==> forall j: nat :: j < |plans| && plans[j].group == plans[i].group ==> j in finished + {i}
    ensures OpenGroups(plans, pending, finished + {i}, if all then heldGroups - {plans[i].group} else heldGroups)
  {
    hide Open;
    StillOpen(plans, pending, finished, heldGroups, i);
  }

  /** A wave is released whole or quarantined whole, and nothing else changes. */
  ghost predicate Settled(job: Job, s: State, group: Group, safe: bool, n: nat, t: State) {
    && t == s.(reserved := t.reserved, quarantined := t.quarantined, held := t.held, quarantine := t.quarantine)
    && (if safe
        then LessMembers(job.plans, group, n, s.held, t.held) && t.quarantine == s.quarantine
        else t.held == s.held && PlusMembers(job.plans, group, n, s.quarantine, t.quarantine))
  }

  lemma NextSettled(job: Job, s: State, group: Group, safe: bool, n: nat, t: State)
    requires n < |job.plans| && Settled(job, s, group, safe, n, t) && Member(job.plans, group, n)
    ensures Settled(job, s, group, safe, n + 1, if safe then Release(job, t, n) else Quarantine(job, t, n))
  {
    hide Credit, Debit;
  }

  lemma SettledStill(job: Job, s: State, group: Group, safe: bool, n: nat, t: State)
    requires n < |job.plans| && Settled(job, s, group, safe, n, t) && !Member(job.plans, group, n)
    ensures Settled(job, s, group, safe, n + 1, t)
  {
  }

  lemma NothingSettled(job: Job, s: State, group: Group, safe: bool)
    ensures Settled(job, s, group, safe, 0, s)
  {
  }

  lemma SettledHolds(job: Job, s: State, group: Group, safe: bool, n: nat, t: State)
    requires n < |job.plans| && Settled(job, s, group, safe, n, t) && n in s.held && n !in s.quarantine
    ensures n in t.held && n !in t.quarantine
  {
  }

  lemma {:induction false} SettleMembersKeeps(job: Job, s: State, group: Group, safe: bool, n: nat)
    requires Sound(job, s) && AllNonNegative(Requirements(job.plans)) && n <= |job.plans|
    requires forall i :: Member(job.plans, group, i) ==> i in s.held && i !in s.quarantine
    ensures var t := SettleMembers(job, s, group, safe, n); Sound(job, t) && Settled(job, s, group, safe, n, t)
  {
    hide Sound, AllNonNegative, Release, Quarantine, Settled;
    if n == 0 {
      NothingSettled(job, s, group, safe);
    } else {
      var t := SettleMembers(job, s, group, safe, n - 1);
      SettleMembersKeeps(job, s, group, safe, n - 1);
      if Member(job.plans, group, n - 1) {
        SettledHolds(job, s, group, safe, n - 1, t);
        NextSettled(job, s, group, safe, n - 1, t);
        if safe {
          ReleaseIsSound(job, t, n - 1);
        } else {
          QuarantineIsSound(job, t, n - 1);
        }
      } else {
        SettledStill(job, s, group, safe, n - 1, t);
      }
    }
  }

  /** What only ever moves one way. */
  ghost predicate Advances(s: State, t: State) {
    && s.results.Keys <= t.results.Keys && (forall j :: j in s.results ==> t.results[j] == s.results[j])
    && s.quarantine <= t.quarantine && s.admitted <= t.admitted && t.pending <= s.pending
    && (s.stopped ==> t.stopped) && (s.cancelled ==> t.cancelled)
  }

  /** Completion admits nothing and ends nothing. */
  ghost predicate CompletesOnly(s: State, t: State) {
    && Advances(s, t) && t.admitted == s.admitted && t.pending == s.pending && t.ended == s.ended
    && t.draining == s.draining
  }

  lemma AdvancesOn(s: State, t: State, u: State)
    requires Advances(s, t) && Advances(t, u)
    ensures Advances(s, u)
  {
  }

  /** The fields a result changes. */
  lemma ObserveFields(job: Job, s: State, i: nat, outcome: Outcome)
    requires i < |job.plans|
    ensures var t := Observe(job, s, i, outcome);
            && t == s.(active := s.active - {i}, results := t.results, completed := t.completed, stopped := t.stopped,
                       cancelled := t.cancelled)
            && t.results == s.results[i := EpisodeResult(job.plans[i].identity, outcome)]
            && t.completed == s.completed[job.plans[i].group := Tally(s.completed, job.plans[i].group) + 1]
            && (s.stopped ==> t.stopped) && (s.cancelled ==> t.cancelled)
  {
    hide Outcome.Clean, Outcome.Safe;
  }

  lemma ReleaseFields(job: Job, s: State, i: nat)
    requires i < |job.plans|
    ensures var t := Release(job, s, i); t == s.(reserved := t.reserved, held := s.held - {i})
  {
    hide Debit;
  }

  lemma QuarantineFields(job: Job, s: State, i: nat)
    requires i < |job.plans|
    ensures var t := Quarantine(job, s, i); t == s.(quarantined := t.quarantined, quarantine := s.quarantine + {i})
  {
    hide Credit;
  }

  /** The fields recording it changes besides: the plan's charge. */
  lemma RecordFields(job: Job, s: State, i: nat, outcome: Outcome)
    requires i < |job.plans|
    ensures var t, u := Observe(job, s, i, outcome), Record(job, s, i, outcome);
            && u == t.(reserved := u.reserved, held := u.held, quarantined := u.quarantined, quarantine := u.quarantine)
            && t.quarantine <= u.quarantine
  {
    hide Observe, Release, Quarantine, Outcome.Safe;
    ReleaseFields(job, Observe(job, s, i, outcome), i);
    QuarantineFields(job, Observe(job, s, i, outcome), i);
  }

  lemma RecordCompletesOnly(job: Job, s: State, i: nat, outcome: Outcome)
    requires i < |job.plans| && i !in s.results
    ensures CompletesOnly(s, Record(job, s, i, outcome))
    ensures Record(job, s, i, outcome).results.Keys == s.results.Keys + {i}
    ensures Record(job, s, i, outcome).heldGroups == s.heldGroups
    ensures Record(job, s, i, outcome).active == s.active - {i}
  {
    hide Record, Observe;
    ObserveFields(job, s, i, outcome);
    RecordFields(job, s, i, outcome);
  }

  /** The state between a result and the closing of its group, under waves. */
  ghost predicate Closable(job: Job, t: State, group: Group) {
    && job.config.policy == TerminalWaves
    && Sound(job, t) && AllNonNegative(Requirements(job.plans))
    && (forall j :: Member(job.plans, group, j) ==> j in t.held && j !in t.quarantine && j in t.results)
  }

  lemma CloseWave(job: Job, t: State, group: Group, uncertain: bool)
    requires Closable(job, t, group)
    ensures var u := CloseGroup(job, t, group, uncertain);
            var safe := AllSafe(job.plans, t.results, group) && !uncertain;
            && Sound(job, u) && CompletesOnly(t, u) && u.heldGroups == t.heldGroups - {group}
            && u.results == t.results && u.active == t.active && u.completed == t.completed
            && (if safe then u.stopped == t.stopped && u.cancelled == t.cancelled else u.stopped && u.cancelled)
            && (if safe
                then LessMembers(job.plans, group, |job.plans|, t.held, u.held) && u.quarantine == t.quarantine
                else u.held == t.held && PlusMembers(job.plans, group, |job.plans|, t.quarantine, u.quarantine))
  {
    var safe := AllSafe(job.plans, t.results, group) && !uncertain;
    SettleMembersKeeps(job, t, group, safe, |job.plans|);
    hide AllSafe, Balanced, Once, Named;
  }

  /** Closing a wave keeps whose charges are held. */
  lemma CloseWaveHolds(job: Job, t: State, group: Group, uncertain: bool, s: State, i: nat)
    requires Closable(job, t, group)
    requires Holds(job, s.active, s.results.Keys, s.heldGroups, s.held, s.quarantine)
    requires t.held == s.held && t.quarantine == s.quarantine && t.heldGroups == s.heldGroups
    requires t.results.Keys == s.results.Keys + {i}
    requires s.quarantine != {} ==> t.stopped
    ensures var u := CloseGroup(job, t, group, uncertain);
            && Holds(job, u.active, u.results.Keys, u.heldGroups, u.held, u.quarantine)
            && (u.quarantine != {} ==> u.stopped)
  {
    CloseWave(job, t, group, uncertain);
    hide CloseGroup, Closable, Sound;
    var u := CloseGroup(job, t, group, uncertain);
    assert forall j :: j in u.quarantine ==> j in t.quarantine || Member(job.plans, group, j);
    if u.quarantine == t.quarantine && t.quarantine == {} {
      assert u.quarantine == {};
    }
  }

  /** The recorded plan's group is finished exactly when its counter says so. */
  lemma CountTells(plans: seq<Plan>, completed: map<Group, nat>, finished: set<nat>, group: Group)
    requires Counted(plans, completed, finished)
    ensures Tally(completed, group) == GroupSize(plans, group, |plans|)
            <==> forall j: nat :: j < |plans| && plans[j].group == group ==> j in finished
  {
    CountBound(plans, group, finished, |plans|);
  }

  lemma RecordCounts(job: Job, s: State, i: nat, outcome: Outcome)
    requires Counted(job.plans, s.completed, s.results.Keys) && i < |job.plans| && i !in s.results
    ensures Counted(job.plans, Record(job, s, i, outcome).completed, s.results.Keys + {i})
  {
    hide Counted, Record, Observe;
    ObserveFields(job, s, i, outcome);
    RecordFields(job, s, i, outcome);
    CountedNext(job.plans, s.completed, s.results.Keys, i);
  }

  ghost predicate Recorded(job: Job, s: State, i: nat, t: State)
    requires i < |job.plans|
  {
    && Sound(job, t) && HoldsAfter(job, s, i, t) && (t.quarantine != {} ==> t.stopped)
    && CompletesOnly(s, t) && t.results.Keys == s.results.Keys + {i} && t.heldGroups == s.heldGroups
    && t.active == s.active - {i} && Counted(job.plans, t.completed, t.results.Keys)
  }

  lemma RecordRecords(job: Job, s: State, i: nat, outcome: Outcome)
    requires Running(job, s) && i in s.active && i < |job.plans|
    ensures Recorded(job, s, i, Record(job, s, i, outcome))
  {
    ActiveIsHeld(job, s, i);
    RunningFacts(job, s);
    hide Running, Sound, Counted, Record, CompletesOnly, HoldsAfter, Partition, AllNonNegative;
    RecordIsSound(job, s, i, outcome);
    RecordHolds(job, s, i, outcome);
    RecordCompletesOnly(job, s, i, outcome);
    RecordCounts(job, s, i, outcome);
  }

  lemma RunningFacts(job: Job, s: State)
    requires Running(job, s)
    ensures Sound(job, s) && AllNonNegative(Requirements(job.plans))
    ensures job.config.policy == NativeGroups ==> s.held == s.active + s.quarantine
    ensures s.quarantine != {} ==> s.stopped
    ensures Counted(job.plans, s.completed, s.results.Keys)
    ensures OpenGroups(job.plans, s.pending, s.results.Keys, s.heldGroups)
    ensures Holds(job, s.active, s.results.Keys, s.heldGroups, s.held, s.quarantine)
  {
    hide Sound, AllNonNegative, Counted, OpenGroups;
  }

  ghost predicate Done(job: Job, s: State, i: nat, t: State) {
    && Running(job, t) && CompletesOnly(s, t)
    && t.results.Keys == s.results.Keys + {i} && t.active == s.active - {i}
  }

  /** Under native groups nothing but the group's slot depends on the group being finished. */
  lemma NativeDone(job: Job, s: State, i: nat, t: State, heldGroups: set<Group>)
    requires Running(job, s) && i in s.active && i < |job.plans| && Recorded(job, s, i, t)
    requires OpenGroups(job.plans, t.pending, t.results.Keys, heldGroups) && heldGroups <= s.heldGroups
    requires job.config.policy == NativeGroups || heldGroups == s.heldGroups
    ensures Done(job, s, i, t.(heldGroups := heldGroups))
  {
    ActiveIsHeld(job, s, i);
    RunningFacts(job, s);
    hide Running, Counted, OpenGroups, Sound, Holds, HoldsAfter, Partition;
    SlotsDoNotMatter(job, t, heldGroups);
    RecordedHolds(job, s, i, t, heldGroups);
    RecordedRuns(job, s, i, t.(heldGroups := heldGroups));
  }

  lemma RecordedHolds(job: Job, s: State, i: nat, t: State, heldGroups: set<Group>)
    requires Holds(job, s.active, s.results.Keys, s.heldGroups, s.held, s.quarantine)
    requires i < |job.plans| && HoldsAfter(job, s, i, t) && t.results.Keys == s.results.Keys + {i}
    requires job.config.policy == NativeGroups || heldGroups == s.heldGroups
    ensures Holds(job, t.active, t.results.Keys, heldGroups, t.held, t.quarantine)
  {
  }

  lemma SlotsDoNotMatter(job: Job, t: State, heldGroups: set<Group>)
    requires Sound(job, t)
    ensures Sound(job, t.(heldGroups := heldGroups))
  {
  }

  lemma ReadyToClose(job: Job, s: State, i: nat, t: State, group: Group)
    requires i < |job.plans| && job.config.policy == TerminalWaves && group in s.heldGroups
    requires Holds(job, s.active, s.results.Keys, s.heldGroups, s.held, s.quarantine)
    requires HoldsAfter(job, s, i, t) && Sound(job, t) && AllNonNegative(Requirements(job.plans))
    requires forall j :: Member(job.plans, group, j) ==> j in t.results
    ensures Closable(job, t, group)
  {
    hide Sound, AllNonNegative;
  }

  lemma WaveDone(job: Job, s: State, i: nat, t: State, group: Group, uncertain: bool)
    requires Running(job, s) && i in s.active && i < |job.plans| && Recorded(job, s, i, t)
    requires job.config.policy == TerminalWaves && group in s.heldGroups
    requires forall j :: Member(job.plans, group, j) ==> j in t.results
    requires OpenGroups(job.plans, t.pending, t.results.Keys, t.heldGroups - {group})
    ensures Done(job, s, i, CloseGroup(job, t, group, uncertain))
  {
    hide Running, Counted, OpenGroups, Sound, AllSafe, CloseGroup, Holds, Closable, LessMembers, PlusMembers, Advances;
    RunningFacts(job, s);
    ReadyToClose(job, s, i, t, group);
    CloseWave(job, t, group, uncertain);
    CloseWaveHolds(job, t, group, uncertain, s, i);
    AdvancesOn(s, t, CloseGroup(job, t, group, uncertain));
    RecordedRuns(job, s, i, CloseGroup(job, t, group, uncertain));
  }

  /** One completion keeps every invariant. */
  lemma CompleteRuns(job: Job, s: State, i: nat, outcome: Outcome, uncertain: bool)
    requires Running(job, s) && i in s.active && i < |job.plans|
    ensures Done(job, s, i, Complete(job, s, i, outcome, uncertain))
  {
    var t, group := Record(job, s, i, outcome), job.plans[i].group;
    var all := t.Count(group) == GroupSize(job.plans, group, |job.plans|);
    RecordRecords(job, s, i, outcome);
    assert Counted(job.plans, t.completed, t.results.Keys);
    RunningFacts(job, s);
    ActiveIsHeld(job, s, i);
    hide Running, Counted, OpenGroups, Holds, Sound, AllSafe, AllNonNegative, CloseGroup, Done, Record, HoldsAfter;
    CountTells(job.plans, t.completed, t.results.Keys, group);
    GroupsAfter(job.plans, s.pending, s.results.Keys, s.heldGroups, i, all);
    if !all {
      NativeDone(job, s, i, t, s.heldGroups);
    } else if job.config.policy == NativeGroups {
      NativeDone(job, s, i, t, s.heldGroups - {group});
      CloseNative(job, t, group, uncertain);
    } else {
      WaveDone(job, s, i, t, group, uncertain);
    }
  }

  lemma CloseNative(job: Job, t: State, group: Group, uncertain: bool)
    requires job.config.policy == NativeGroups
    ensures CloseGroup(job, t, group, uncertain) == t.(heldGroups := t.heldGroups - {group})
  {
  }

  lemma RecordedRuns(job: Job, s: State, i: nat, t: State)
    requires Running(job, s) && i in s.active && i < |job.plans|
    requires Sound(job, t) && (t.quarantine != {} ==> t.stopped)
    requires Holds(job, t.active, t.results.Keys, t.heldGroups, t.held, t.quarantine)
    requires t.pending == s.pending && t.active == s.active - {i} && t.results.Keys == s.results.Keys + {i}
    requires OpenGroups(job.plans, t.pending, t.results.Keys, t.heldGroups) && t.heldGroups <= s.heldGroups
    requires Counted(job.plans, t.completed, t.results.Keys)
    ensures Running(job, t)
  {
    hide Admissible, Sound, OpenGroups, Counted, Whole, Holds;
    SubsetSize(t.heldGroups, s.heldGroups);
  }

  /** The state a wake-up's completions leave. */
  ghost predicate DoneAll(job: Job, s: State, t: State) {
    Running(job, t) && CompletesOnly(s, t) && t.active <= s.active
  }

  lemma {:induction false} CompleteAllRuns(job: Job, s: State, finished: seq<(nat, Outcome)>, uncertain: bool)
    requires Running(job, s)
    ensures DoneAll(job, s, CompleteAll(job, s, finished, uncertain))
    decreases |finished|
  {
    hide Running, Complete, Advances;
    if finished != [] {
      var i, outcome := finished[0].0, finished[0].1;
      if i in s.active && i < |job.plans| {
        CompleteRuns(job, s, i, outcome, uncertain);
        var t := Complete(job, s, i, outcome, uncertain);
        CompleteAllRuns(job, t, finished[1..], uncertain);
        AdvancesOn(s, t, CompleteAll(job, t, finished[1..], uncertain));
      } else {
        CompleteAllRuns(job, s, finished[1..], uncertain);
      }
    } else {
      Stands(s);
    }
  }

  lemma Stands(s: State)
    ensures Advances(s, s)
  {
  }

  // ----- the drain deadline

  /** The plans whose charges the drain deadline quarantines. */
  predicate Owed(job: Job, s: State, i: nat)
    requires i < |job.plans|
  {
    if job.config.policy == NativeGroups then i in s.active else job.plans[i].group in s.heldGroups
  }

  /** The quarantine part of a drain. */
  ghost predicate DrainedCharges(job: Job, s: State, i: nat, quarantine: set<nat>)
    requires i <= |job.plans|
  {
    && (forall j: nat :: j < |job.plans| ==> (j in quarantine <==> j in s.quarantine || (j < i && Owed(job, s, j))))
    && (forall j :: j in quarantine ==> j < |job.plans|)
    && s.quarantine <= quarantine
  }

  /** The results part of a drain. */
  ghost predicate DrainedResults(job: Job, s: State, i: nat, results: map<nat, EpisodeResult>)
    requires i <= |job.plans|
  {
    && (forall j :: j in results <==> j in s.results || (j < i && j in s.active))
    && (forall j :: j in s.results ==> results[j] == s.results[j])
    && (forall j :: j in results && j !in s.results && j < |job.plans| ==> results[j] == Unresolved(job.plans[j]))
  }

  /** The drain has dealt with every plan below i. */
  ghost predicate Drained(job: Job, s: State, i: nat, t: State)
    requires i <= |job.plans|
  {
    && t == s.(quarantined := t.quarantined, quarantine := t.quarantine, results := t.results, draining := t.draining)
    && DrainedCharges(job, s, i, t.quarantine) && DrainedResults(job, s, i, t.results)
  }

  lemma QuarantineConserves(job: Job, s: State, i: nat)
    requires Conserved(job, s) && i in s.held && i !in s.quarantine && i < |job.plans|
    ensures Conserved(job, Quarantine(job, s, i))
  {
    hide Balanced;
    QuarantineBalanced(Requirements(job.plans), job.config.capacities, s.reserved, s.held, s.quarantined, s.quarantine, i);
  }

  lemma DrainOneConserves(job: Job, s: State, i: nat, t: State)
    requires i < |job.plans| && Drained(job, s, i, t) && Conserved(job, t)
    requires Owed(job, s, i) ==> i in s.held && i !in s.quarantine
    ensures Conserved(job, DrainOne(job, t, i))
  {
    hide Balanced, Credit;
    if Owed(job, s, i) {
      QuarantineConserves(job, t, i);
    }
  }

  lemma DrainOneNames(job: Job, t: State, i: nat)
    requires i < |job.plans| && Named(job.plans, t.results)
    ensures Named(job.plans, DrainOne(job, t, i).results)
  {
    hide Quarantine;
    QuarantineRecords(job, t, i);
  }

  lemma QuarantineRecords(job: Job, s: State, i: nat)
    requires i < |job.plans|
    ensures Quarantine(job, s, i).results == s.results
  {
  }

  /** The drain of plan i changes these fields and no others. */
  lemma DrainOneFields(job: Job, t: State, i: nat)
    requires i < |job.plans|
    ensures var u := DrainOne(job, t, i);
            && u == t.(quarantined := u.quarantined, quarantine := u.quarantine, results := u.results, draining := u.draining)
            && u.quarantine == (if Owed(job, t, i) then t.quarantine + {i} else t.quarantine)
            && u.results == (if i in t.active then t.results[i := Unresolved(job.plans[i])] else t.results)
  {
    hide Quarantine, Unresolved;
    QuarantineFields(job, t, i);
  }

  lemma NextDrainedCharges(job: Job, s: State, i: nat, quarantine: set<nat>)
    requires i < |job.plans| && DrainedCharges(job, s, i, quarantine)
    ensures DrainedCharges(job, s, i + 1, if Owed(job, s, i) then quarantine + {i} else quarantine)
  {
    hide Owed;
  }

  lemma NextDrainedResults(job: Job, s: State, i: nat, results: map<nat, EpisodeResult>)
    requires i < |job.plans| && DrainedResults(job, s, i, results) && (i in s.active ==> i !in s.results)
    ensures DrainedResults(job, s, i + 1, if i in s.active then results[i := Unresolved(job.plans[i])] else results)
  {
    hide Unresolved;
  }

  lemma OwedStays(job: Job, s: State, i: nat, t: State)
    requires i < |job.plans| && t.active == s.active && t.heldGroups == s.heldGroups
    ensures Owed(job, t, i) == Owed(job, s, i)
  {
  }

  lemma DrainOneDrains(job: Job, s: State, i: nat, t: State)
    requires i < |job.plans| && Drained(job, s, i, t)
    requires i in s.active ==> i !in s.results
    ensures Drained(job, s, i + 1, DrainOne(job, t, i))
  {
    hide DrainedCharges, DrainedResults, DrainOne, Owed, Unresolved;
    DrainOneFields(job, t, i);
    OwedStays(job, s, i, t);
    NextDrainedCharges(job, s, i, t.quarantine);
    NextDrainedResults(job, s, i, t.results);
  }

  lemma DrainOneKeeps(job: Job, s: State, i: nat, t: State)
    requires i < |job.plans| && Drained(job, s, i, t) && Conserved(job, t) && Named(job.plans, t.results)
    requires i in s.active ==> i !in s.results
    requires Owed(job, s, i) ==> i in s.held && i !in s.quarantine
    ensures var u := DrainOne(job, t, i);
            Drained(job, s, i + 1, u) && Conserved(job, u) && Named(job.plans, u.results)
  {
    hide Drained, Conserved, Named, DrainOne;
    DrainOneConserves(job, s, i, t);
    DrainOneNames(job, t, i);
    DrainOneDrains(job, s, i, t);
  }

  lemma {:induction false} DrainFromKeeps(job: Job, s: State, i: nat, t: State)
    requires i <= |job.plans| && Drained(job, s, i, t) && Conserved(job, t) && Named(job.plans, t.results)
    requires s.active !! s.results.Keys
    requires forall j: nat :: j < |job.plans| && Owed(job, s, j) ==> j in s.held && j !in s.quarantine
    ensures var u := DrainFrom(job, t, i);
            Drained(job, s, |job.plans|, u) && Conserved(job, u) && Named(job.plans, u.results)
    decreases |job.plans| - i
  {
    hide Drained, Conserved, Named, DrainOne;
    if i < |job.plans| {
      DrainOneKeeps(job, s, i, t);
      DrainFromKeeps(job, s, i + 1, DrainOne(job, t, i));
    }
  }

  lemma OwedIsHeld(job: Job, s: State)
    requires Running(job, s)
    ensures forall j: nat :: j < |job.plans| && Owed(job, s, j) ==> j in s.held && j !in s.quarantine
  {
    hide Sound, OpenGroups, Counted, Whole;
    assert s.active !! s.results.Keys by {
      PendingInRange(job, s);
    }
  }

  lemma NothingDrained(job: Job, s: State)
    requires Sound(job, s)
    ensures Drained(job, s, 0, s) && Named(job.plans, s.results) && Conserved(job, s)
    ensures s.active !! s.results.Keys
  {
    hide Once;
  }

  lemma DrainedAdvances(job: Job, s: State, t: State)
    requires Drained(job, s, |job.plans|, t)
    ensures Advances(s, t.(active := {}, ended := true)) && t.admitted == s.admitted && t.pending == s.pending
  {
  }

  /** Whatever the deadline leaves reserved is quarantined. */
  lemma DrainEnds(job: Job, s: State)
    requires Running(job, s)
    ensures Ended(job, Drain(job, s)) && Advances(s, Drain(job, s)) && Drain(job, s).admitted == s.admitted
    ensures Drain(job, s).pending == s.pending
  {
    hide Running, Sound, Drained, Conserved, Named, Advances, Holds, Owed, DrainFrom, Counted, OpenGroups, AllNonNegative;
    RunningFacts(job, s);
    OwedIsHeld(job, s);
    NothingDrained(job, s);
    var t := DrainFrom(job, s, 0);
    DrainFromKeeps(job, s, 0, s);
    DrainedIsSound(job, s, t);
    DrainedAdvances(job, s, t);
  }

  lemma DrainedIsSound(job: Job, s: State, t: State)
    requires Sound(job, s) && Holds(job, s.active, s.results.Keys, s.heldGroups, s.held, s.quarantine)
    requires Drained(job, s, |job.plans|, t) && Conserved(job, t) && Named(job.plans, t.results)
    ensures Sound(job, t.(active := {}, ended := true))
    ensures t.held == t.quarantine
  {
    assert Conserved(job, t.(active := {}, ended := true)) by {
      hide Balanced;
    }
    hide Once, Named;
    assert forall j :: j in t.held ==> j < |job.plans|;
    hide Balanced;
    assert forall j :: j in t.held <==> j in t.quarantine;
  }
}