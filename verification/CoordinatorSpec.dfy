/** The specification of one immutable coordinator run (rollout_manager/coordinator.py, `Coordinator.run`).

    The asyncio loop is a state machine whose iterations are atomic between
    awaits. What the environment decides during an iteration, that is
    cancellation, the drain deadline, hook outcomes, and which admitted episodes
    finish with what result, is one `Round`; a schedule is any sequence of
    rounds, so a statement about all schedules is one about every prefix of
    every execution. CoordinatorRun.dfy runs the same loop on mutable fields. */
module CoordinatorSpec {
  import opened Wrappers
  import opened Resources

  datatype Name = Name(text: string)

  datatype Group = Group(benchmark: Name, groupId: Name, passIndex: nat)

  datatype Plan = Plan(identity: Name, runId: Name, group: Group, requirement: Requirement)

  datatype Execution = Completed | Failed | NotAdmitted

  datatype Cleanup = Verified | NotRequired | Unknown

  /** `uncertain` is `request_uncertain` of the request state. */
  datatype Outcome = Outcome(
    execution: Execution, cleanup: Cleanup, uncertain: bool, infrastructure: bool, reviewRequired: bool)
  {
    predicate Safe() {
      cleanup != Unknown && !uncertain
    }

    /** A result that gives the run no reason to stop. */
    predicate Clean() {
      Safe() && !infrastructure && !reviewRequired && execution != NotAdmitted
    }
  }

  datatype EpisodeResult = EpisodeResult(identity: Name, outcome: Outcome)

  function Unresolved(plan: Plan): EpisodeResult {
    EpisodeResult(plan.identity, Outcome(Failed, Unknown, false, true, false))
  }

  function NotAdmittedResult(plan: Plan): EpisodeResult {
    EpisodeResult(plan.identity, Outcome(NotAdmitted, NotRequired, false, false, false))
  }

  datatype Policy = NativeGroups | TerminalWaves

  datatype Hook = HookOk | HookFails | HookCancelled

  /** What happens during one iteration. `finished` proposes results for admitted plans, by index. */
  datatype Round = Round(
    cancelled: bool, admitHook: Hook, cancelledDuringAdmission: bool, deadlinePassed: bool, interrupted: bool,
    finished: seq<(nat, Outcome)>, closureUncertain: bool)
  {
    predicate Benign() {
      && !cancelled && admitHook.HookOk? && !cancelledDuringAdmission && !interrupted && !closureUncertain
      && forall k :: 0 <= k < |finished| ==> finished[k].1.Clean()
    }
  }

  // ----- validation

  datatype RunError = DuplicateIdentity | MixedRuns | UnknownBackend | SharedStageExecutor | ExceedsCapacity | WaveExceedsCapacity

  function Requirements(plans: seq<Plan>): (r: seq<Requirement>)
    ensures |r| == |plans|
    ensures forall i :: 0 <= i < |plans| ==> r[i] == plans[i].requirement
  {
    seq(|plans|, i requires 0 <= i < |plans| => plans[i].requirement)
  }

  function GroupSize(plans: seq<Plan>, group: Group, n: nat): nat
    requires n <= |plans|
  {
    if n == 0 then 0 else GroupSize(plans, group, n - 1) + if plans[n - 1].group == group then 1 else 0
  }

  /** The charges of a group's members below n added up, as `_wave_fits` does. */
  function GroupCharge(plans: seq<Plan>, group: Group, n: nat): Ledger
    requires n <= |plans|
  {
    if n == 0 then map[]
    else if plans[n - 1].group == group then Credit(GroupCharge(plans, group, n - 1), plans[n - 1].requirement)
    else GroupCharge(plans, group, n - 1)
  }

  /** No charged account is over its executor's capacity. */
  predicate LedgerWithin(ledger: Ledger, capacities: Capacities) {
    forall a :: a in ledger && a.executor in capacities ==> ledger[a] <= capacities[a.executor].Of(a.quantity)
  }

  datatype Config = Config(
    maxWorkers: nat, maxGroups: nat, policy: Policy, capacities: Capacities, backends: map<Name, Name>)
  {
    /** What the constructors accept. */
    predicate Valid() {
      && 1 <= maxWorkers && 1 <= maxGroups && (policy == TerminalWaves ==> maxGroups == 1)
      && forall e :: e in capacities ==> capacities[e].NonNegative()
    }
  }

  predicate StageConflict(config: Config, plans: seq<Plan>, i: nat, j: nat)
    requires i < |plans| && j < |plans|
    requires plans[i].group.benchmark in config.backends && plans[j].group.benchmark in config.backends
  {
    && !plans[i].requirement.episodeScoped && !plans[j].requirement.episodeScoped
    && plans[i].requirement.executor == plans[j].requirement.executor
    && config.backends[plans[i].group.benchmark] != config.backends[plans[j].group.benchmark]
  }

  /** The checks `run` makes before it starts anything. */
  function ValidatePlans(config: Config, plans: seq<Plan>): Option<RunError> {
    if exists i, j :: 0 <= i < j < |plans| && plans[i].identity == plans[j].identity then Some(DuplicateIdentity)
    else if exists i, j :: 0 <= i < j < |plans| && plans[i].runId != plans[j].runId then Some(MixedRuns)
    else if exists i :: 0 <= i < |plans| && plans[i].group.benchmark !in config.backends then Some(UnknownBackend)
    else if exists i, j :: 0 <= i < j < |plans| && StageConflict(config, plans, i, j) then Some(SharedStageExecutor)
    else if exists i :: 0 <= i < |plans| && !Fits(map[], config.capacities, plans[i].requirement) then Some(ExceedsCapacity)
    else if config.policy == TerminalWaves && exists i :: 0 <= i < |plans| && !WaveFits(config, plans, plans[i].group)
    then Some(WaveExceedsCapacity)
    else None
  }

  predicate WaveFits(config: Config, plans: seq<Plan>, group: Group) {
    && GroupSize(plans, group, |plans|) <= config.maxWorkers
    && LedgerWithin(GroupCharge(plans, group, |plans|), config.capacities)
  }

  // ----- counting a group's members

  ghost function CountIn(plans: seq<Plan>, group: Group, s: set<nat>, n: nat): nat
    requires n <= |plans|
  {
    if n == 0 then 0
    else CountIn(plans, group, s, n - 1) + if plans[n - 1].group == group && n - 1 in s then 1 else 0
  }

  lemma {:induction false} CountBound(plans: seq<Plan>, group: Group, s: set<nat>, n: nat)
    requires n <= |plans|
    ensures CountIn(plans, group, s, n) <= GroupSize(plans, group, n)
    ensures CountIn(plans, group, s, n) == GroupSize(plans, group, n) <==>
              forall i: nat :: i < n && plans[i].group == group ==> i in s
  {
    if n > 0 {
      CountBound(plans, group, s, n - 1);
    }
  }

  lemma {:induction false} CountAdds(plans: seq<Plan>, group: Group, s: set<nat>, i: nat, n: nat)
    requires n <= |plans| && i < n && i !in s
    ensures CountIn(plans, group, s + {i}, n)
            == CountIn(plans, group, s, n) + if plans[i].group == group then 1 else 0
  {
    if i < n - 1 {
      CountAdds(plans, group, s, i, n - 1);
    } else {
      CountSame(plans, group, s + {i}, s, n - 1);
    }
  }

  lemma {:induction false} CountSame(plans: seq<Plan>, group: Group, a: set<nat>, b: set<nat>, n: nat)
    requires n <= |plans|
    requires forall i: nat :: i < n ==> (i in a <==> i in b)
    ensures CountIn(plans, group, a, n) == CountIn(plans, group, b, n)
  {
    if n > 0 {
      CountSame(plans, group, a, b, n - 1);
    }
  }

  function Indices(plans: seq<Plan>): (indices: seq<nat>)
    ensures |indices| == |plans|
    ensures forall i :: 0 <= i < |plans| ==> indices[i] == i
  {
    seq(|plans|, i => i)
  }

  lemma {:induction false} NothingCounted(plans: seq<Plan>, group: Group, n: nat)
    requires n <= |plans|
    ensures CountIn(plans, group, {}, n) == 0
  {
    if n > 0 {
      NothingCounted(plans, group, n - 1);
    }
  }

  /** What validation leaves the run to work with. */
  ghost predicate Admissible(config: Config, plans: seq<Plan>) {
    && config.Valid() && AllNonNegative(Requirements(plans))
    && (forall i :: 0 <= i < |plans| ==> Fits(map[], config.capacities, plans[i].requirement))
    && (config.policy == TerminalWaves ==> forall i :: 0 <= i < |plans| ==> WaveFits(config, plans, plans[i].group))
  }

  lemma ValidatedIsAdmissible(config: Config, plans: seq<Plan>)
    requires config.Valid() && AllNonNegative(Requirements(plans))
    requires ValidatePlans(config, plans) == None
    ensures Admissible(config, plans)
  {
  }

  lemma NothingReserved(config: Config, plans: seq<Plan>)
    requires config.Valid()
    ensures Balanced(Requirements(plans), config.capacities, map[], {}, map[], {})
  {
    EmptyAccounts(Requirements(plans));
    forall a: Account | a.executor in config.capacities
      ensures Balance(map[], a) <= config.capacities[a.executor].Of(a.quantity)
    {
      assert config.capacities[a.executor].NonNegative();
    }
  }

  // ----- states

  datatype Job = Job(config: Config, plans: seq<Plan>)

  /** The coordinator's fields and the locals of `run`. The waiting list is always ascending, so it is kept
      as a set. The last three record whose charges are held, which of those are quarantined, and every admission. */
  datatype State = State(
    reserved: Ledger, quarantined: Ledger,
    pending: set<nat>, active: set<nat>, results: map<nat, EpisodeResult>,
    completed: map<Group, nat>, heldGroups: set<Group>,
    stopped: bool, cancelled: bool, draining: set<nat>, ended: bool,
    held: set<nat>, quarantine: set<nat>, admitted: multiset<nat>)
  {
    function Count(group: Group): nat {
      if group in completed then completed[group] else 0
    }
  }

  function Below(n: nat): (all: set<nat>)
    ensures forall i: nat :: i in all <==> i < n
  {
    if n == 0 then {} else Below(n - 1) + {n - 1}
  }

  function Initial(job: Job): State {
    State(map[], map[], Below(|job.plans|), {}, map[], map[], {}, false, false, {}, job.plans == [], {}, {}, multiset{})
  }

  function WithGroup(groups: set<Group>, group: Group): set<Group> {
    if group in groups then groups else groups + {group}
  }

  /** Charge one plan and start its episode. */
  function Admit(job: Job, s: State, i: nat): State
    requires i < |job.plans|
  {
    s.(reserved := Credit(s.reserved, job.plans[i].requirement), held := s.held + {i},
       heldGroups := WithGroup(s.heldGroups, job.plans[i].group),
       pending := s.pending - {i}, active := s.active + {i}, admitted := s.admitted + multiset{i})
  }

  // ----- native admission

  datatype Scan = Scan(state: State, blocked: set<Executor>)

  /** A waiting plan is skipped for want of a group slot, because its executor already lacked room in this
      scan, or because it lacks room now; otherwise it is admitted. */
  function Consider(job: Job, scan: Scan, i: nat): Scan
    requires i < |job.plans|
  {
    var s, plan := scan.state, job.plans[i];
    if i !in s.pending then scan
    else if plan.group !in s.heldGroups && |s.heldGroups| >= job.config.maxGroups then scan
    else if plan.requirement.executor in scan.blocked then scan
    else if !Fits(s.reserved, job.config.capacities, plan.requirement)
    then scan.(blocked := scan.blocked + {plan.requirement.executor})
    else scan.(state := Admit(job, s, i))
  }

  function AdmitNative(job: Job, scan: Scan, i: nat): State
    requires i <= |job.plans|
    decreases |job.plans| - i
  {
    if i == |job.plans| || |scan.state.active| >= job.config.maxWorkers then scan.state
    else AdmitNative(job, Consider(job, scan, i), i + 1)
  }

  // ----- wave admission

  /** Admit a group's members, in order, up to index n. */
  function AdmitMembers(job: Job, s: State, group: Group, n: nat): State
    requires n <= |job.plans|
  {
    if n == 0 then s
    else
      var t := AdmitMembers(job, s, group, n - 1);
      if job.plans[n - 1].group == group then Admit(job, t, n - 1) else t
  }

  function First(job: Job, pending: set<nat>, i: nat := 0): (first: nat)
    requires exists j :: j in pending && i <= j < |job.plans|
    ensures first in pending && i <= first < |job.plans|
    ensures forall j :: i <= j < first ==> j !in pending
    decreases |job.plans| - i
  {
    if i in pending then i else First(job, pending, i + 1)
  }

  function Halt(s: State): State {
    s.(stopped := true)
  }

  function Cancel(s: State): State {
    s.(stopped := true, cancelled := true)
  }

  /** Start the first waiting wave once no wave is held, unless its admission hook or a cancellation prevents it. */
  function AdmitWave(job: Job, s: State, round: Round): State
    requires forall i :: i in s.pending ==> i < |job.plans|
  {
    if s.heldGroups != {} || s.pending == {} then s
    else
      assert exists j :: j in s.pending && 0 <= j < |job.plans|;
      match round.admitHook
      case HookFails => Halt(s)
      case HookCancelled => Cancel(s).(ended := true)
      case HookOk =>
        if round.cancelledDuringAdmission then Cancel(s)
        else AdmitMembers(job, s, job.plans[First(job, s.pending)].group, |job.plans|)
  }

  // ----- completion

  function Release(job: Job, s: State, i: nat): State
    requires i < |job.plans|
  {
    s.(reserved := Debit(s.reserved, job.plans[i].requirement), held := s.held - {i})
  }

  function Quarantine(job: Job, s: State, i: nat): State
    requires i < |job.plans|
  {
    s.(quarantined := Credit(s.quarantined, job.plans[i].requirement), quarantine := s.quarantine + {i})
  }

  /** Release a closed wave's charges, or quarantine them, up to index n. */
  function SettleMembers(job: Job, s: State, group: Group, safe: bool, n: nat): State
    requires n <= |job.plans|
  {
    if n == 0 then s
    else
      var t := SettleMembers(job, s, group, safe, n - 1);
      if job.plans[n - 1].group != group then t
      else if safe then Release(job, t, n - 1)
      else Quarantine(job, t, n - 1)
  }

  predicate AllSafe(plans: seq<Plan>, results: map<nat, EpisodeResult>, group: Group) {
    forall i :: 0 <= i < |plans| && plans[i].group == group ==> i in results && results[i].outcome.Safe()
  }

  /** A result arrives: the plan no longer runs, and the result may stop the run. */
  function Observe(job: Job, s: State, i: nat, outcome: Outcome): State
    requires i < |job.plans|
  {
    var plan := job.plans[i];
    s.(active := s.active - {i}, results := s.results[i := EpisodeResult(plan.identity, outcome)],
       completed := s.completed[plan.group := s.Count(plan.group) + 1],
       stopped := s.stopped || !outcome.Clean(), cancelled := s.cancelled || !outcome.Safe())
  }

  /** Under native groups the plan's own charge is released or quarantined at once. */
  function Record(job: Job, s: State, i: nat, outcome: Outcome): State
    requires i < |job.plans|
  {
    var t := Observe(job, s, i, outcome);
    if job.config.policy == TerminalWaves then t
    else if outcome.Safe() then Release(job, t, i)
    else Quarantine(job, t, i)
  }

  /** A group whose last member finished is closed: a wave is released whole or quarantined whole. */
  function CloseGroup(job: Job, s: State, group: Group, closureUncertain: bool): State {
    var settled :=
      if job.config.policy == NativeGroups then s
      else
        var safe := AllSafe(job.plans, s.results, group) && !closureUncertain;
        var t := SettleMembers(job, s, group, safe, |job.plans|);
        if safe then t else Cancel(t);
    settled.(heldGroups := settled.heldGroups - {group})
  }

  function Complete(job: Job, s: State, i: nat, outcome: Outcome, closureUncertain: bool): State
    requires i < |job.plans|
  {
    var t, group := Record(job, s, i, outcome), job.plans[i].group;
    if t.Count(group) == GroupSize(job.plans, group, |job.plans|) then CloseGroup(job, t, group, closureUncertain) else t
  }

  /** The finished tasks of one wake-up; a proposed result for a plan that is not running means nothing. */
  function CompleteAll(job: Job, s: State, finished: seq<(nat, Outcome)>, closureUncertain: bool): State
    decreases |finished|
  {
    if finished == [] then s
    else
      var i, outcome := finished[0].0, finished[0].1;
      var t := if i in s.active && i < |job.plans| then Complete(job, s, i, outcome, closureUncertain) else s;
      CompleteAll(job, t, finished[1..], closureUncertain)
  }

  // ----- drain timeout

  /** What the drain deadline does to plan i: under native groups every running plan, under waves every member
      of a held group, is quarantined. */
  function DrainOne(job: Job, s: State, i: nat): State
    requires i < |job.plans|
  {
    var owed := if job.config.policy == NativeGroups then i in s.active else job.plans[i].group in s.heldGroups;
    var t := if owed then Quarantine(job, s, i) else s;
    if i in s.active then t.(results := t.results[i := Unresolved(job.plans[i])], draining := t.draining + {i}) else t
  }

  function DrainFrom(job: Job, s: State, i: nat): State
    requires i <= |job.plans|
    decreases |job.plans| - i
  {
    if i == |job.plans| then s else DrainFrom(job, DrainOne(job, s, i), i + 1)
  }

  function Drain(job: Job, s: State): State {
    DrainFrom(job, s, 0).(active := {}, ended := true)
  }

  // ----- the loop

  function Notice(s: State, round: Round): State {
    if s.cancelled || round.cancelled then Cancel(s) else s
  }

  function AdmitPhase(job: Job, s: State, round: Round): State
    requires forall i :: i in s.pending ==> i < |job.plans|
  {
    if s.stopped then s
    else if job.config.policy == TerminalWaves then AdmitWave(job, s, round)
    else AdmitNative(job, Scan(s, {}), 0)
  }

  /** One iteration of the loop. The drain deadline runs from the first iteration that saw a cancellation. */
  function Iterate(job: Job, s: State, round: Round): State
    requires forall i :: i in s.pending ==> i < |job.plans|
  {
    if s.ended then s
    else
      var noticed := Notice(s, round);
      var ready := AdmitPhase(job, noticed, round);
      if ready.ended then ready
      else if ready.active == {} then ready.(ended := true)
      else if noticed.cancelled && round.deadlinePassed then Drain(job, ready)
      else if round.interrupted then ready.(cancelled := true)
      else
        var next := CompleteAll(job, ready, round.finished, round.closureUncertain);
        next.(ended := next.pending == {} && next.active == {})
  }

  /** The results handed back once the loop has ended: one per plan, in the order given. */
  function Ordered(job: Job, s: State): (ordered: seq<EpisodeResult>)
    ensures |ordered| == |job.plans|
  {
    seq(|job.plans|, i requires 0 <= i < |job.plans| =>
      if i in s.results then s.results[i] else NotAdmittedResult(job.plans[i]))
  }
}
