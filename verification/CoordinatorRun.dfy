/** The coordinator's run loop on mutable fields, step by step equal to its specification. */
module CoordinatorRun {
  import opened Basics
  import opened RowIds
  import opened Resources
  import Spec = CoordinatorSpec
  import opened CoordinatorInvariants
  import T = CoordinatorTheorems

  type Job = Spec.Job
  type Round = Spec.Round
  type Group = Spec.Group
  type Plan = Spec.Plan
  type EpisodeResult = Spec.EpisodeResult
  type Outcome = Spec.Outcome

  lemma AllIndices(plans: seq<Plan>)
    ensures Ascending(Spec.Indices(plans)) && Elements(Spec.Indices(plans)) == Spec.Below(|plans|)
  {
    var indices := Spec.Indices(plans);
    forall i: nat ensures i in Elements(indices) <==> i in Spec.Below(|plans|) {
      if i < |plans| {
        assert indices[i] == i;
      }
    }
  }

  /** `list.remove` on a list without duplicates. */
  function Without(s: seq<nat>, i: nat): seq<nat> {
    if s == [] then [] else if s[0] == i then s[1..] else [s[0]] + Without(s[1..], i)
  }

  lemma FirstIsLeast(s: seq<nat>, j: nat)
    requires Ascending(s) && s != [] && j in s[1..]
    ensures s[0] < j && Ascending(s[1..])
  {
    var m :| 0 <= m < |s[1..]| && s[1..][m] == j;
    assert s[m + 1] == j;
  }

  lemma {:induction false} WithoutMember(s: seq<nat>, i: nat, j: nat)
    requires Ascending(s)
    ensures j in Without(s, i) <==> j in s && j != i
  {
    if s != [] {
      WithoutMember(s[1..], i, j);
      if j in s[1..] {
        FirstIsLeast(s, j);
      }
      assert j in s <==> j == s[0] || j in s[1..];
    }
  }

  lemma {:induction false} WithoutAscends(s: seq<nat>, i: nat)
    requires Ascending(s)
    ensures Ascending(Without(s, i))
  {
    if s != [] && s[0] != i {
      var kept := Without(s[1..], i);
      WithoutAscends(s[1..], i);
      forall k | 0 <= k < |kept| ensures s[0] < kept[k] {
        WithoutMember(s[1..], i, kept[k]);
        FirstIsLeast(s, kept[k]);
      }
    }
  }

  lemma WithoutKeeps(s: seq<nat>, i: nat)
    requires Ascending(s)
    ensures Ascending(Without(s, i))
    ensures forall j :: j in Without(s, i) <==> j in s && j != i
    ensures Elements(Without(s, i)) == Elements(s) - {i}
  {
    WithoutAscends(s, i);
    forall j: nat ensures j in Without(s, i) <==> j in s && j != i {
      WithoutMember(s, i, j);
    }
  }

  lemma {:induction false} SkipTo(job: Job, scan: Spec.Scan, i: nat, j: nat)
    requires i <= j <= |job.plans|
    requires forall m: nat :: i <= m < j ==> m !in scan.state.pending
    ensures Spec.AdmitNative(job, scan, i) == Spec.AdmitNative(job, scan, j)
    decreases j - i
  {
    if i < j {
      SkipTo(job, scan, i + 1, j);
    }
  }

  lemma ConsiderNext(job: Job, scan: Spec.Scan, i: nat)
    requires i < |job.plans| && |scan.state.active| < job.config.maxWorkers
    ensures Spec.AdmitNative(job, scan, i) == Spec.AdmitNative(job, Spec.Consider(job, scan, i), i + 1)
  {
  }

  predicate FoundFrom(order: seq<nat>, k: nat, i: nat) {
    exists j :: k <= j < |order| && order[j] == i
  }

  /** A scan of a copy of the waiting list has reached position k, and every plan below the cursor. */
  ghost predicate Scanned(pending: seq<nat>, order: seq<nat>, k: nat, cursor: nat) {
    && k <= |order| && Ascending(order)
    && (forall j :: k <= j < |order| ==> cursor <= order[j] && order[j] in pending)
    && (forall i :: i in pending && cursor <= i ==> FoundFrom(order, k, i))
  }

  lemma NextScanned(pending: seq<nat>, order: seq<nat>, k: nat, cursor: nat)
    requires Scanned(pending, order, k, cursor) && k < |order| && Ascending(pending)
    ensures cursor <= order[k] && order[k] in pending
    ensures forall i: nat :: cursor <= i < order[k] ==> i !in pending
    ensures Scanned(pending, order, k + 1, order[k] + 1)
    ensures Scanned(Without(pending, order[k]), order, k + 1, order[k] + 1)
  {
    hide Without;
    WithoutKeeps(pending, order[k]);
    forall i | i in pending && cursor <= i
      ensures order[k] <= i && (order[k] < i ==> FoundFrom(order, k + 1, i))
    {
      FoundLater(order, k, i);
    }
  }

  lemma FoundLater(order: seq<nat>, k: nat, i: nat)
    requires Ascending(order) && k < |order| && FoundFrom(order, k, i)
    ensures order[k] <= i && (order[k] < i ==> FoundFrom(order, k + 1, i))
  {
    var j :| k <= j < |order| && order[j] == i;
  }

  lemma ScanStarts(pending: seq<nat>)
    requires Ascending(pending)
    ensures Scanned(pending, pending, 0, 0)
  {
    forall i | i in pending ensures FoundFrom(pending, 0, i) {
    }
  }

  lemma ScanStops(job: Job, scan: Spec.Scan, i: nat)
    requires i <= |job.plans| && (i == |job.plans| || |scan.state.active| >= job.config.maxWorkers)
    ensures Spec.AdmitNative(job, scan, i) == scan.state
  {
  }

  lemma NothingLeft(pending: seq<nat>, order: seq<nat>, cursor: nat)
    requires Scanned(pending, order, |order|, cursor)
    ensures forall i: nat :: cursor <= i ==> i !in pending
  {
  }

  lemma NoneWaiting(pending: seq<nat>)
    ensures Elements(pending) == {} <==> pending == []
  {
    if pending != [] {
      assert pending[0] in Elements(pending);
    }
  }

  /** The head of the waiting list is its least index. */
  lemma FirstWaiting(job: Job, pending: seq<nat>)
    requires Ascending(pending) && pending != [] && forall i :: i in pending ==> i < |job.plans|
    ensures pending[0] in Elements(pending) && pending[0] < |job.plans|
    ensures forall i :: i in Elements(pending) ==> i < |job.plans|
    ensures Spec.First(job, Elements(pending)) == pending[0]
  {
    assert pending[0] in Elements(pending) && 0 <= pending[0] < |job.plans|;
    var first := Spec.First(job, Elements(pending));
    var k :| 0 <= k < |pending| && pending[k] == first;
  }

  class Coordinator {
    const job: Job
    var reserved: Ledger
    var quarantined: Ledger
    var pending: seq<nat>
    var active: set<nat>
    var results: map<nat, EpisodeResult>
    var completed: map<Group, nat>
    var heldGroups: set<Group>
    var stopped: bool
    var cancelled: bool
    var draining: set<nat>
    var ended: bool
    ghost var held: set<nat>
    ghost var quarantine: set<nat>
    ghost var admitted: multiset<nat>

    ghost predicate Valid()
      reads this
    {
      && Ascending(pending)
      && forall i :: i in pending || i in active ==> i < |job.plans|
    }

    /** The fields as a specification state. */
    ghost function S(): Spec.State
      reads this
    {
      Spec.State(reserved, quarantined, Elements(pending), active, results, completed, heldGroups,
                 stopped, cancelled, draining, ended, held, quarantine, admitted)
    }

    constructor (job: Job)
      ensures this.job == job && Valid() && S() == Spec.Initial(job)
    {
      this.job := job;
      reserved, quarantined := map[], map[];
      pending, active, results := Spec.Indices(job.plans), {}, map[];
      completed, heldGroups := map[], {};
      stopped, cancelled, draining, ended := false, false, {}, job.plans == [];
      held, quarantine, admitted := {}, {}, multiset{};
      new;
      AllIndices(job.plans);
    }

    method Charge(i: nat)
      requires i < |job.plans|
      modifies this`reserved, this`held
      ensures reserved == Credit(old(reserved), job.plans[i].requirement) && held == old(held) + {i}
    {
      reserved, held := Credit(reserved, job.plans[i].requirement), held + {i};
    }

    method Release(i: nat)
      requires i < |job.plans|
      modifies this`reserved, this`held
      ensures S() == Spec.Release(job, old(S()), i)
    {
      reserved, held := Debit(reserved, job.plans[i].requirement), held - {i};
    }

    method Quarantine(i: nat)
      requires i < |job.plans|
      modifies this`quarantined, this`quarantine
      ensures S() == Spec.Quarantine(job, old(S()), i)
    {
      quarantined, quarantine := Credit(quarantined, job.plans[i].requirement), quarantine + {i};
    }

    method Cancel()
      modifies this`stopped, this`cancelled
      ensures S() == Spec.Cancel(old(S()))
    {
      stopped, cancelled := true, true;
    }

    /** The plan's group takes a slot, and the plan goes from the waiting list to the running ones. */
    method Start(i: nat)
      requires Ascending(pending) && i < |job.plans|
      modifies this`heldGroups, this`pending, this`active, this`admitted
      ensures heldGroups == Spec.WithGroup(old(heldGroups), job.plans[i].group)
      ensures pending == Without(old(pending), i) && Ascending(pending)
      ensures Elements(pending) == Elements(old(pending)) - {i} && forall j :: j in pending ==> j in old(pending)
      ensures active == old(active) + {i} && admitted == old(admitted) + multiset{i}
    {
      hide Without, Ascending, Elements;
      WithoutKeeps(pending, i);
      if job.plans[i].group !in heldGroups {
        heldGroups := heldGroups + {job.plans[i].group};
      }
      pending, active, admitted := Without(pending, i), active + {i}, admitted + multiset{i};
    }

    method Admit(i: nat)
      requires Valid() && i < |job.plans|
      modifies this`reserved, this`held, this`heldGroups, this`pending, this`active, this`admitted
      ensures Valid() && S() == Spec.Admit(job, old(S()), i)
      ensures pending == Without(old(pending), i)
    {
      hide Without, Credit, Ascending, Elements, Spec.WithGroup;
      Charge(i);
      Start(i);
    }

    /** Native admission scans a copy of the waiting list. */
    method AdmitNative()
      requires Valid()
      modifies this`reserved, this`held, this`heldGroups, this`pending, this`active, this`admitted
      ensures Valid() && S() == Spec.AdmitNative(job, Spec.Scan(old(S()), {}), 0)
    {
      hide Spec.AdmitNative, Fits, Scanned, Credit;
      var order, blocked, k := pending, {}, 0;
      ghost var start, cursor := Spec.Scan(S(), {}), 0;
      ScanStarts(pending);
      while k < |order|
        invariant Valid() && 0 <= k <= |order| && cursor <= |job.plans|
        invariant Scanned(pending, order, k, cursor)
        invariant Spec.AdmitNative(job, start, 0) == Spec.AdmitNative(job, Spec.Scan(S(), blocked), cursor)
      {
        var i := order[k];
        NextScanned(pending, order, k, cursor);
        SkipTo(job, Spec.Scan(S(), blocked), cursor, i);
        if |active| >= job.config.maxWorkers {
          ScanStops(job, Spec.Scan(S(), blocked), i);
          return;
        }
        ConsiderNext(job, Spec.Scan(S(), blocked), i);
        var plan := job.plans[i];
        if (plan.group in heldGroups || |heldGroups| < job.config.maxGroups)
          && plan.requirement.executor !in blocked
        {
          if !Fits(reserved, job.config.capacities, plan.requirement) {
            blocked := blocked + {plan.requirement.executor};
          } else {
            Admit(i);
          }
        }
        k, cursor := k + 1, i + 1;
      }
      NothingLeft(pending, order, cursor);
      SkipTo(job, Spec.Scan(S(), blocked), cursor, |job.plans|);
      ScanStops(job, Spec.Scan(S(), blocked), |job.plans|);
    }

    /** Start the first waiting wave, unless its hook or a cancellation prevents it. */
    method AdmitWave(round: Round)
      requires Valid()
      modifies this
      ensures Valid() && S() == Spec.AdmitWave(job, old(S()), round)
    {
      if heldGroups != {} || pending == [] {
        NoneWaiting(pending);
        return;
      }
      FirstWaiting(job, pending);
      var group := job.plans[pending[0]].group;
      match round.admitHook
      case HookFails => stopped := true;
      case HookCancelled => Cancel(); ended := true;
      case HookOk =>
        if round.cancelledDuringAdmission {
          Cancel();
        } else {
          AdmitMembers(group);
        }
    }

    method AdmitMembers(group: Group)
      requires Valid()
      modifies this`reserved, this`held, this`heldGroups, this`pending, this`active, this`admitted
      ensures Valid() && S() == Spec.AdmitMembers(job, old(S()), group, |job.plans|)
    {
      for i := 0 to |job.plans|
        invariant Valid() && S() == Spec.AdmitMembers(job, old(S()), group, i)
      {
        if job.plans[i].group == group {
          Admit(i);
        }
      }
    }

    /** Whether every member of a group has a result that proves its cleanup. */
    method ObserveGroup(group: Group) returns (safe: bool)
      ensures safe == Spec.AllSafe(job.plans, results, group)
    {
      safe := true;
      for i := 0 to |job.plans|
        invariant safe <==> forall j :: 0 <= j < i && job.plans[j].group == group ==>
                    j in results && results[j].outcome.Safe()
      {
        if job.plans[i].group == group {
          safe := safe && i in results && results[i].outcome.Safe();
        }
      }
    }

    method SettleMembers(group: Group, safe: bool)
      modifies this`reserved, this`held, this`quarantined, this`quarantine
      ensures S() == Spec.SettleMembers(job, old(S()), group, safe, |job.plans|)
    {
      for i := 0 to |job.plans|
        invariant S() == Spec.SettleMembers(job, old(S()), group, safe, i)
      {
        if job.plans[i].group == group {
          if safe {
            Release(i);
          } else {
            Quarantine(i);
          }
        }
      }
    }

    method CloseGroup(group: Group, closureUncertain: bool)
      modifies this`reserved, this`held, this`quarantined, this`quarantine, this`stopped, this`cancelled, this`heldGroups
      ensures S() == Spec.CloseGroup(job, old(S()), group, closureUncertain)
    {
      if job.config.policy == Spec.TerminalWaves {
        var safe := ObserveGroup(group);
        safe := safe && !closureUncertain;
        SettleMembers(group, safe);
        if !safe {
          Cancel();
        }
      }
      heldGroups := heldGroups - {group};
    }

    method CountGroup(group: Group) returns (size: nat)
      ensures size == Spec.GroupSize(job.plans, group, |job.plans|)
    {
      size := 0;
      for i := 0 to |job.plans|
        invariant size == Spec.GroupSize(job.plans, group, i)
      {
        if job.plans[i].group == group {
          size := size + 1;
        }
      }
    }

    /** A result that leaves anything open stops the run; one that proves no cleanup also cancels it. */
    method Heed(outcome: Outcome)
      modifies this`stopped, this`cancelled
      ensures stopped == (old(stopped) || !outcome.Clean()) && cancelled == (old(cancelled) || !outcome.Safe())
    {
      var safe := outcome.Safe();
      if !safe {
        cancelled := true;
      }
      if !safe || outcome.infrastructure || outcome.execution == Spec.NotAdmitted || outcome.reviewRequired {
        stopped := true;
      }
    }

    /** The plan runs no more and has a result; its group has one finished member more. */
    method Finish(i: nat, outcome: Outcome)
      requires i < |job.plans|
      modifies this`active, this`results, this`completed
      ensures active == old(active) - {i}
      ensures results == old(results)[i := Spec.EpisodeResult(job.plans[i].identity, outcome)]
      ensures completed == old(completed)[job.plans[i].group := Tally(old(completed), job.plans[i].group) + 1]
    {
      var plan := job.plans[i];
      active, results := active - {i}, results[i := Spec.EpisodeResult(plan.identity, outcome)];
      completed := completed[plan.group := (if plan.group in completed then completed[plan.group] else 0) + 1];
    }

    method Observe(i: nat, outcome: Outcome)
      requires i < |job.plans|
      modifies this`active, this`results, this`completed, this`stopped, this`cancelled
      ensures S() == Spec.Observe(job, old(S()), i, outcome)
    {
      hide Elements, Outcome.Safe, Outcome.Clean;
      Finish(i, outcome);
      Heed(outcome);
    }

    method Record(i: nat, outcome: Outcome)
      requires i < |job.plans|
      modifies this`active, this`results, this`completed, this`stopped, this`cancelled
      modifies this`reserved, this`held, this`quarantined, this`quarantine
      ensures S() == Spec.Record(job, old(S()), i, outcome)
    {
      hide Spec.Observe, Spec.Release, Spec.Quarantine;
      Observe(i, outcome);
      if job.config.policy == Spec.NativeGroups {
        if outcome.Safe() {
          Release(i);
        } else {
          Quarantine(i);
        }
      }
    }

    method Complete(i: nat, outcome: Outcome, closureUncertain: bool)
      requires Valid() && i < |job.plans|
      modifies this
      ensures Valid() && S() == Spec.Complete(job, old(S()), i, outcome, closureUncertain)
    {
      hide Spec.CloseGroup;
      Record(i, outcome);
      var group := job.plans[i].group;
      var size := CountGroup(group);
      if group in completed && completed[group] == size {
        CloseGroup(group, closureUncertain);
      }
    }

    method CompleteAll(finished: seq<(nat, Outcome)>, closureUncertain: bool)
      requires Valid()
      modifies this
      ensures Valid() && S() == Spec.CompleteAll(job, old(S()), finished, closureUncertain)
    {
      ghost var start := S();
      for k := 0 to |finished|
        invariant Valid()
        invariant Spec.CompleteAll(job, start, finished, closureUncertain)
                  == Spec.CompleteAll(job, S(), finished[k..], closureUncertain)
      {
        var i, outcome := finished[k].0, finished[k].1;
        assert finished[k..][1..] == finished[k + 1..];
        if i in active {
          Complete(i, outcome, closureUncertain);
        }
      }
    }

    method Drain()
      requires Valid()
      modifies this`quarantined, this`quarantine, this`results, this`draining, this`active, this`ended
      ensures Valid() && S() == Spec.Drain(job, old(S()))
    {
      hide Elements, Spec.DrainOne, Ascending;
      ghost var start := S();
      for i := 0 to |job.plans|
        invariant Valid() && active == start.active && ended == start.ended
        invariant Spec.DrainFrom(job, start, 0) == Spec.DrainFrom(job, S(), i)
      {
        DrainOne(i);
      }
      active, ended := {}, true;
    }

    method DrainOne(i: nat)
      requires i < |job.plans|
      modifies this`quarantined, this`quarantine, this`results, this`draining
      ensures S() == Spec.DrainOne(job, old(S()), i)
    {
      hide Spec.Quarantine;
      if if job.config.policy == Spec.NativeGroups then i in active else job.plans[i].group in heldGroups {
        Quarantine(i);
      }
      if i in active {
        results, draining := results[i := Spec.Unresolved(job.plans[i])], draining + {i};
      }
    }

    method AdmitPhase(round: Round)
      requires Valid() && forall i :: i in S().pending ==> i < |job.plans|
      modifies this
      ensures Valid() && S() == Spec.AdmitPhase(job, old(S()), round)
    {
      if !stopped {
        if job.config.policy == Spec.TerminalWaves {
          AdmitWave(round);
        } else {
          AdmitNative();
        }
      }
    }

    /** One turn of the loop. */
    method Iterate(round: Round)
      requires Valid() && forall i :: i in S().pending ==> i < |job.plans|
      modifies this
      ensures Valid() && S() == Spec.Iterate(job, old(S()), round)
    {
      hide Spec.AdmitPhase, Spec.Drain, Spec.CompleteAll;
      if ended {
        return;
      }
      if cancelled || round.cancelled {
        Cancel();
      }
      ghost var noticed := S();
      var deadline := cancelled && round.deadlinePassed;
      AdmitPhase(round);
      if ended {
        return;
      }
      if active == {} {
        ended := true;
      } else if deadline {
        Drain();
      } else if round.interrupted {
        cancelled := true;
      } else {
        CompleteAll(round.finished, round.closureUncertain);
        NoneWaiting(pending);
        ended := pending == [] && active == {};
      }
    }
  }

  /** The whole loop over any schedule of what its environment does, and the results it hands back. */
  method Run(job: Job, started: bool, rounds: seq<Round>) returns (coordinator: Coordinator, ordered: seq<EpisodeResult>)
    requires Spec.Admissible(job.config, job.plans)
    ensures fresh(coordinator) && coordinator.job == job && coordinator.Valid()
    ensures coordinator.S() == T.Run(job, started, rounds)
    ensures ordered == Spec.Ordered(job, coordinator.S())
  {
    hide Spec.Admissible, Safe, Spec.Iterate;
    coordinator := new Coordinator(job);
    if !started {
      coordinator.stopped, coordinator.ended := true, true;
    }
    assert rounds[..0] == [];
    for k := 0 to |rounds|
      invariant fresh(coordinator) && coordinator.Valid() && coordinator.job == job
      invariant coordinator.S() == T.Run(job, started, rounds[..k])
    {
      assert rounds[..k + 1][..k] == rounds[..k];
      T.SafeIsInRange(job, coordinator.S());
      coordinator.Iterate(rounds[k]);
    }
    assert rounds[..|rounds|] == rounds;
    ordered := [];
    for i := 0 to |job.plans|
      invariant ordered == Spec.Ordered(job, coordinator.S())[..i]
    {
      ordered := ordered + [
        if i in coordinator.results then coordinator.results[i] else Spec.NotAdmittedResult(job.plans[i])];
    }
  }
}
