/** Which plan lists a run accepts. */
module CoordinatorChecks {
  import opened Basics
  import opened Wrappers
  import opened Resources
  import opened CoordinatorSpec

  type Owners = map<Executor, Name>

  /** Every backend-stage executor has one backend that runs all its plans. */
  ghost predicate Owning(config: Config, plans: seq<Plan>, owners: Owners) {
    forall i :: 0 <= i < |plans| && !plans[i].requirement.episodeScoped ==>
      && plans[i].requirement.executor in owners && plans[i].group.benchmark in config.backends
      && owners[plans[i].requirement.executor] == config.backends[plans[i].group.benchmark]
  }

  /** The plans of a group. */
  function Siblings(plans: seq<Plan>, group: Group): set<nat> {
    set i: nat | i < |plans| && plans[i].group == group
  }

  /** All siblings may be charged to empty executors at once, and each finds a worker. */
  ghost predicate FitsTogether(config: Config, plans: seq<Plan>, group: Group) {
    && |Siblings(plans, group)| <= config.maxWorkers
    && forall a: Account :: a.executor in config.capacities ==>
         HeldTotal(Requirements(plans), Siblings(plans, group), a) <= config.capacities[a.executor].Of(a.quantity)
  }

  // ----- owners

  function OwnersOf(config: Config, plans: seq<Plan>): Owners
    requires forall i :: 0 <= i < |plans| ==> plans[i].group.benchmark in config.backends
  {
    if plans == [] then map[]
    else
      var (front, last) := (plans[..|plans| - 1], plans[|plans| - 1]);
      var before := OwnersOf(config, front);
      if last.requirement.episodeScoped then before
      else before[last.requirement.executor := config.backends[last.group.benchmark]]
  }

  lemma {:induction false} OwnersOwn(config: Config, plans: seq<Plan>)
    requires forall i :: 0 <= i < |plans| ==> plans[i].group.benchmark in config.backends
    requires forall i, j :: 0 <= i < j < |plans| ==> !StageConflict(config, plans, i, j)
    ensures Owning(config, plans, OwnersOf(config, plans))
  {
    if plans != [] {
      var front, last := plans[..|plans| - 1], plans[|plans| - 1];
      forall i, j | 0 <= i < j < |front| ensures !StageConflict(config, front, i, j) {
        assert !StageConflict(config, plans, i, j);
      }
      OwnersOwn(config, front);
      forall i | 0 <= i < |plans| && !plans[i].requirement.episodeScoped
        ensures var e, owners := plans[i].requirement.executor, OwnersOf(config, plans);
                e in owners && owners[e] == config.backends[plans[i].group.benchmark]
      {
        if i < |front| {
          assert plans[i] == front[i];
          assert !StageConflict(config, plans, i, |front|);
        }
      }
    }
  }

  lemma OwnedIsNoConflict(config: Config, plans: seq<Plan>, owners: Owners, i: nat, j: nat)
    requires Owning(config, plans, owners) && i < |plans| && j < |plans|
    requires plans[i].group.benchmark in config.backends && plans[j].group.benchmark in config.backends
    ensures !StageConflict(config, plans, i, j)
  {
  }

  // ----- groups

  function SiblingsBelow(plans: seq<Plan>, group: Group, n: nat): (members: set<nat>)
    requires n <= |plans|
    ensures forall i: nat :: i in members <==> i < n && plans[i].group == group
    ensures |members| == GroupSize(plans, group, n)
  {
    if n == 0 then {}
    else SiblingsBelow(plans, group, n - 1) + if plans[n - 1].group == group then {n - 1} else {}
  }

  lemma GroupSizeIs(plans: seq<Plan>, group: Group)
    ensures GroupSize(plans, group, |plans|) == |Siblings(plans, group)|
  {
    hide SiblingsBelow, GroupSize;
    assert SiblingsBelow(plans, group, |plans|) == Siblings(plans, group);
  }

  lemma {:induction false} GroupChargeIs(plans: seq<Plan>, group: Group, n: nat, account: Account)
    requires n <= |plans|
    ensures Balance(GroupCharge(plans, group, n), account) == Total(Requirements(plans), Siblings(plans, group), account, n)
  {
    if n > 0 {
      GroupChargeIs(plans, group, n - 1, account);
    }
  }

  lemma TogetherIff(config: Config, plans: seq<Plan>, group: Group)
    requires config.Valid()
    ensures WaveFits(config, plans, group) <==> FitsTogether(config, plans, group)
  {
    hide GroupCharge, GroupSize, Total;
    GroupSizeIs(plans, group);
    var ledger := GroupCharge(plans, group, |plans|);
    forall a: Account ensures Balance(ledger, a) == HeldTotal(Requirements(plans), Siblings(plans, group), a) {
      GroupChargeIs(plans, group, |plans|, a);
    }
    LedgerIff(ledger, config);
  }

  lemma LedgerIff(ledger: Ledger, config: Config)
    requires config.Valid()
    ensures LedgerWithin(ledger, config.capacities) <==>
              forall a: Account :: a.executor in config.capacities ==> Balance(ledger, a) <= config.capacities[a.executor].Of(a.quantity)
  {
    forall a: Account | a.executor in config.capacities ensures 0.0 <= config.capacities[a.executor].Of(a.quantity) {
      assert config.capacities[a.executor].NonNegative();
    }
    if forall a: Account :: a.executor in config.capacities ==> Balance(ledger, a) <= config.capacities[a.executor].Of(a.quantity) {
      forall a | a in ledger && a.executor in config.capacities ensures ledger[a] <= config.capacities[a.executor].Of(a.quantity) {
        assert Balance(ledger, a) == ledger[a];
      }
    }
  }

  // ----- the checks

  /** Different episodes of one run, for backends there are. */
  predicate OneRun(config: Config, plans: seq<Plan>) {
    && (forall i, j :: 0 <= i < j < |plans| ==> plans[i].identity != plans[j].identity)
    && (forall i, j :: 0 <= i < j < |plans| ==> plans[i].runId == plans[j].runId)
    && (forall i :: 0 <= i < |plans| ==> plans[i].group.benchmark in config.backends)
  }

  /** An episode asks for no more than its executor has. */
  predicate FitsAlone(capacities: Capacities, requirement: Requirement) {
    requirement.episodeScoped && requirement.executor in capacities ==>
      var capacity := capacities[requirement.executor];
      && requirement.cpu <= capacity.cpu && requirement.memoryBytes <= capacity.memoryBytes
      && requirement.storageBytes <= capacity.storageBytes && requirement.gpuCount <= capacity.gpuCount
  }

  lemma AloneIff(capacities: Capacities, requirement: Requirement)
    ensures Fits(map[], capacities, requirement) <==> FitsAlone(capacities, requirement)
  {
  }

  ghost predicate Acceptable(config: Config, plans: seq<Plan>) {
    && OneRun(config, plans) && (exists owners :: Owning(config, plans, owners))
    && (forall i :: 0 <= i < |plans| ==> FitsAlone(config.capacities, plans[i].requirement))
    && (config.policy == TerminalWaves ==> forall i :: 0 <= i < |plans| ==> FitsTogether(config, plans, plans[i].group))
  }

  /** A run accepts a plan list exactly if its plans are different episodes of one run for registered backends, every
      backend-stage executor can be given to one backend, every episode fits its executor alone, and under terminal
      waves every group finds workers and room together. */
  lemma AcceptedIff(config: Config, plans: seq<Plan>)
    requires config.Valid()
    ensures ValidatePlans(config, plans) == None <==> Acceptable(config, plans)
  {
    hide Fits, FitsAlone, WaveFits, FitsTogether, Owning, StageConflict;
    forall i | 0 <= i < |plans|
      ensures Fits(map[], config.capacities, plans[i].requirement) <==> FitsAlone(config.capacities, plans[i].requirement)
      ensures WaveFits(config, plans, plans[i].group) <==> FitsTogether(config, plans, plans[i].group)
    {
      AloneIff(config.capacities, plans[i].requirement);
      TogetherIff(config, plans, plans[i].group);
    }
    if OneRun(config, plans) {
      OwnersIff(config, plans);
    }
  }

  lemma OwnersIff(config: Config, plans: seq<Plan>)
    requires forall i :: 0 <= i < |plans| ==> plans[i].group.benchmark in config.backends
    ensures (exists owners :: Owning(config, plans, owners)) <==>
              !(exists i, j :: 0 <= i < j < |plans| && StageConflict(config, plans, i, j))
  {
    hide Owning, StageConflict;
    if owners :| Owning(config, plans, owners) {
      forall i, j | 0 <= i < j < |plans| ensures !StageConflict(config, plans, i, j) {
        OwnedIsNoConflict(config, plans, owners, i, j);
      }
    } else if !(exists i, j :: 0 <= i < j < |plans| && StageConflict(config, plans, i, j)) {
      OwnersOwn(config, plans);
    }
  }
}
