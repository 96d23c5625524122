/** What a coordinator run keeps from iteration to iteration. */
module CoordinatorInvariants {
  import opened Resources
  import opened CoordinatorSpec

  // ----- invariants, each over the fields it depends on

  /** Every plan is waiting, running or finished, and only one of these. */
  ghost predicate Partition(n: nat, pending: set<nat>, active: set<nat>, finished: set<nat>) {
    && (forall i :: i in pending ==> i < n)
    && (forall i :: i in active ==> i < n && i !in pending)
    && (forall i :: i in finished ==> i < n && i !in pending && i !in active)
    && (forall i: nat :: i < n ==> i in pending || i in active || i in finished)
  }

  /** Conservation: reserved is exactly the charges held, quarantined exactly the quarantined ones among
      them, and no executor is over capacity. */
  ghost predicate Conserved(job: Job, s: State) {
    Balanced(Requirements(job.plans), job.config.capacities, s.reserved, s.held, s.quarantined, s.quarantine)
  }

  /** No plan is admitted twice. */
  ghost predicate Once(n: nat, pending: set<nat>, admitted: multiset<nat>) {
    forall i: nat :: admitted[i] == if i < n && i !in pending then 1 else 0
  }

  ghost predicate Named(plans: seq<Plan>, results: map<nat, EpisodeResult>) {
    forall i :: i in results && i < |plans| ==> results[i].identity == plans[i].identity
  }

  /** Whose charges are held while the loop runs. */
  ghost predicate Holds(
    job: Job, active: set<nat>, finished: set<nat>, heldGroups: set<Group>, held: set<nat>, quarantine: set<nat>)
  {
    && quarantine <= finished
    && match job.config.policy
       case NativeGroups => held == active + quarantine
       case TerminalWaves =>
         forall i: nat :: i < |job.plans| ==>
           && (i in held <==> job.plans[i].group in heldGroups || i in quarantine)
           && (i in quarantine ==> job.plans[i].group !in heldGroups)
  }

  /** Some member has been admitted and some member has not finished. */
  ghost predicate Open(plans: seq<Plan>, pending: set<nat>, finished: set<nat>, group: Group) {
    && (exists i: nat :: i < |plans| && plans[i].group == group && i !in pending)
    && (exists i: nat :: i < |plans| && plans[i].group == group && i !in finished)
  }

  ghost predicate OpenGroups(plans: seq<Plan>, pending: set<nat>, finished: set<nat>, heldGroups: set<Group>) {
    forall g :: g in heldGroups <==> Open(plans, pending, finished, g)
  }

  function Tally(completed: map<Group, nat>, group: Group): nat {
    if group in completed then completed[group] else 0
  }

  ghost predicate Counted(plans: seq<Plan>, completed: map<Group, nat>, finished: set<nat>) {
    forall g :: Tally(completed, g) == CountIn(plans, g, finished, |plans|)
  }

  /** A wave is admitted whole. */
  ghost predicate Whole(job: Job, pending: set<nat>) {
    job.config.policy == TerminalWaves ==>
      forall i: nat, j: nat :: i < |job.plans| && j < |job.plans| && job.plans[i].group == job.plans[j].group ==>
        (i in pending <==> j in pending)
  }

  /** What holds whether or not the loop is still running. */
  ghost predicate Sound(job: Job, s: State) {
    && Partition(|job.plans|, s.pending, s.active, s.results.Keys)
    && Conserved(job, s)
    && s.held !! s.pending
    && Once(|job.plans|, s.pending, s.admitted)
    && Named(job.plans, s.results)
  }

  /** What holds at the head of every iteration. */
  ghost predicate Running(job: Job, s: State) {
    && Admissible(job.config, job.plans)
    && Sound(job, s)
    && (s.quarantine != {} ==> s.stopped)
    && Holds(job, s.active, s.results.Keys, s.heldGroups, s.held, s.quarantine)
    && OpenGroups(job.plans, s.pending, s.results.Keys, s.heldGroups)
    && Counted(job.plans, s.completed, s.results.Keys)
    && Whole(job, s.pending)
    && |s.active| <= job.config.maxWorkers && |s.heldGroups| <= job.config.maxGroups
  }

  /** What holds once the loop has ended: nothing runs, and whatever is still reserved is quarantined. */
  ghost predicate Ended(job: Job, s: State) {
    s.ended && s.active == {} && s.held == s.quarantine && Sound(job, s)
  }

  ghost predicate Safe(job: Job, s: State) {
    if s.ended then Ended(job, s) else Running(job, s)
  }

  lemma InitialRuns(job: Job)
    requires Admissible(job.config, job.plans)
    ensures Running(job, Initial(job))
  {
    NothingReserved(job.config, job.plans);
    assert Initial(job).results.Keys == {};
    forall g ensures CountIn(job.plans, g, {}, |job.plans|) == 0 {
      NothingCounted(job.plans, g, |job.plans|);
    }
  }
}
