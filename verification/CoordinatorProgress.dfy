/** Schedules without trouble: the coordinator never stalls, runs every plan once, and gives everything back. */
module CoordinatorProgress {
  import opened Basics
  import opened Resources
  import opened CoordinatorSpec
  import opened CoordinatorInvariants
  import opened CoordinatorAdmission
  import opened CoordinatorCompletion
  import opened CoordinatorTheorems

  ghost predicate AllClean(results: map<nat, EpisodeResult>) {
    forall i :: i in results ==> results[i].outcome.Clean()
  }

  /** Nothing has given the run a reason to stop. */
  ghost predicate Untroubled(s: State) {
    !s.stopped && !s.cancelled && AllClean(s.results)
  }

  ghost predicate Lively(s: State) {
    s.ended || s.pending != {} || s.active != {}
  }

  lemma RecordUntroubled(job: Job, s: State, i: nat, outcome: Outcome)
    requires i < |job.plans| && Untroubled(s) && outcome.Clean()
    ensures Untroubled(Record(job, s, i, outcome))
  {
    hide Credit, Debit;
  }

  lemma CloseUntroubled(job: Job, t: State, group: Group)
    requires Untroubled(t) && forall j :: Member(job.plans, group, j) ==> j in t.results
    requires job.config.policy == TerminalWaves ==> Closable(job, t, group)
    ensures Untroubled(CloseGroup(job, t, group, false))
  {
    assert AllSafe(job.plans, t.results, group);
    if job.config.policy == TerminalWaves {
      CloseWave(job, t, group, false);
    }
    hide Closable, Sound, SettleMembers;
  }

  lemma CompleteUntroubled(job: Job, s: State, i: nat, outcome: Outcome)
    requires Running(job, s) && i in s.active && i < |job.plans| && Untroubled(s) && outcome.Clean()
    ensures Untroubled(Complete(job, s, i, outcome, false))
  {
    RunningFacts(job, s);
    ActiveIsHeld(job, s, i);
    var t, group := Record(job, s, i, outcome), job.plans[i].group;
    RecordRecords(job, s, i, outcome);
    hide Running, Counted, Sound, OpenGroups, Holds, HoldsAfter, CloseGroup, Untroubled, Closable, CompletesOnly, Record;
    hide AllNonNegative, Outcome.Clean;
    RecordUntroubled(job, s, i, outcome);
    if t.Count(group) == GroupSize(job.plans, group, |job.plans|) {
      CountTells(job.plans, t.completed, t.results.Keys, group);
      if job.config.policy == TerminalWaves {
        ReadyToClose(job, s, i, t, group);
      }
      CloseUntroubled(job, t, group);
    }
  }

  /** Every reported episode that was running has its result. */
  ghost predicate Collected(finished: seq<(nat, Outcome)>, active: set<nat>, results: map<nat, EpisodeResult>) {
    forall k :: 0 <= k < |finished| && finished[k].0 in active ==> finished[k].0 in results
  }

  ghost predicate FinishedClean(finished: seq<(nat, Outcome)>) {
    forall k :: 0 <= k < |finished| ==> finished[k].1.Clean()
  }

  lemma CollectedFirst(finished: seq<(nat, Outcome)>, active: set<nat>, results: map<nat, EpisodeResult>)
    requires finished != []
    requires Collected(finished[1..], active - {finished[0].0}, results)
    requires finished[0].0 in active ==> finished[0].0 in results
    ensures Collected(finished, active, results)
  {
    var rest := finished[1..];
    assert forall k :: 0 < k < |finished| ==> finished[k] == rest[k - 1];
  }

  lemma CleanRest(finished: seq<(nat, Outcome)>)
    requires FinishedClean(finished) && finished != []
    ensures finished[0].1.Clean() && FinishedClean(finished[1..])
  {
  }

  /** A wake-up collects every finished episode it is told of. */
  lemma {:induction false} CompleteAllUntroubled(job: Job, s: State, finished: seq<(nat, Outcome)>)
    requires Running(job, s) && Untroubled(s) && FinishedClean(finished)
    ensures Untroubled(CompleteAll(job, s, finished, false))
    ensures Collected(finished, s.active, CompleteAll(job, s, finished, false).results)
    decreases |finished|
  {
    PendingInRange(job, s);
    hide Running, Complete, Untroubled, Outcome.Clean, CompletesOnly, FinishedClean;
    if finished != [] {
      var i, outcome, rest := finished[0].0, finished[0].1, finished[1..];
      CleanRest(finished);
      var t := if i in s.active then Complete(job, s, i, outcome, false) else s;
      if i in s.active {
        CompleteRuns(job, s, i, outcome, false);
        CompleteUntroubled(job, s, i, outcome);
        CompleteAllRuns(job, t, rest, false);
        CompletesOnlyKeepsResults(t, CompleteAll(job, t, rest, false));
      }
      CompleteAllUntroubled(job, t, rest);
      assert t.active == s.active - {i};
      hide Collected;
      CollectedFirst(finished, s.active, CompleteAll(job, t, rest, false).results);
    }
  }

  lemma CompletesOnlyKeepsResults(s: State, t: State)
    requires CompletesOnly(s, t)
    ensures s.results.Keys <= t.results.Keys
  {
  }

  /** The episodes the iteration waits for. */
  ghost function Waited(job: Job, s: State, round: Round): set<nat>
    requires forall i :: i in s.pending ==> i < |job.plans|
  {
    AdmitPhase(job, Notice(s, round), round).active
  }

  /** The wake-up reports an episode that was running. */
  ghost predicate Productive(job: Job, s: State, round: Round)
    requires forall i :: i in s.pending ==> i < |job.plans|
  {
    exists k :: 0 <= k < |round.finished| && round.finished[k].0 in Waited(job, s, round)
  }

  lemma BenignIteration(job: Job, s: State, round: Round)
    requires Running(job, s) && !s.ended && Untroubled(s) && Lively(s) && round.Benign()
    requires forall i :: i in s.pending ==> i < |job.plans|
    ensures Waited(job, s, round) != {}
    ensures var t := Iterate(job, s, round);
            && Untroubled(t) && Lively(t) && (t.ended ==> t.pending == {})
            && (Productive(job, s, round) ==> exists i :: i in t.results && i !in s.results)
            && s.results.Keys <= t.results.Keys && t.quarantine == {}
  {
    var ready := AdmitPhase(job, Notice(s, round), round);
    AdmitPhaseRuns(job, s, round);
    SomethingWaited(job, s, round, ready);
    PendingInRange(job, ready);
    var finished := round.finished;
    assert FinishedClean(finished);
    assert !round.closureUncertain && !round.interrupted && Notice(s, round) == s;
    assert Untroubled(ready);
    hide Running, Phased, Untroubled, Round.Benign, CompletesOnly, AdmitPhase;
    var next := CompleteAll(job, ready, finished, false);
    CompleteAllUntroubled(job, ready, finished);
    CompleteAllRuns(job, ready, finished, false);
    CompletesOnlyKeepsResults(ready, next);
    NothingQuarantined(job, next);
    EndingIsUntroubled(next, next.pending == {} && next.active == {});
    if Productive(job, s, round) {
      var k :| 0 <= k < |finished| && finished[k].0 in ready.active;
      assert finished[k].0 in next.results;
    }
  }

  lemma EndingIsUntroubled(s: State, ended: bool)
    requires Untroubled(s)
    ensures Untroubled(s.(ended := ended))
  {
  }

  lemma SomethingWaited(job: Job, s: State, round: Round, ready: State)
    requires Running(job, s) && Lively(s) && !s.ended && !s.stopped && round.Benign()
    requires Phased(job, s, round, ready) && s.results == ready.results
    ensures ready.active != {} && Running(job, ready)
  {
    hide Running;
    var i :| i in s.pending || i in s.active;
    UnfinishedIsSomewhere(job, s, ready, i);
  }

  /** What was waiting or running before admission waits or runs after it. */
  lemma UnfinishedIsSomewhere(job: Job, s: State, ready: State, i: nat)
    requires Running(job, s) && Running(job, ready) && s.results == ready.results
    requires i in s.pending || i in s.active
    ensures i in ready.pending || i in ready.active
  {
    assert Partition(|job.plans|, s.pending, s.active, s.results.Keys);
    assert Partition(|job.plans|, ready.pending, ready.active, ready.results.Keys);
    hide Conserved, Once, Named, Holds, OpenGroups, Counted, Whole;
  }

  lemma NothingQuarantined(job: Job, s: State)
    requires Running(job, s) && Untroubled(s)
    ensures s.quarantine == {}
  {
  }

  ghost predicate AllBenign(rounds: seq<Round>) {
    forall k :: 0 <= k < |rounds| ==> rounds[k].Benign()
  }

  /** A benign run that goes on finds an episode to wait for in every iteration. */
  lemma NeverStalls(job: Job, rounds: seq<Round>, round: Round)
    requires Admissible(job.config, job.plans) && AllBenign(rounds) && round.Benign()
    requires !Run(job, true, rounds).ended
    ensures forall i :: i in Run(job, true, rounds).pending ==> i < |job.plans|
    ensures Waited(job, Run(job, true, rounds), round) != {}
  {
    BenignRun(job, rounds);
    SafeIsInRange(job, Run(job, true, rounds));
    BenignIteration(job, Run(job, true, rounds), round);
  }

  ghost predicate Untouched(s: State) {
    Untroubled(s) && Lively(s) && s.quarantine == {} && (s.ended ==> s.pending == {})
  }

  lemma {:induction false} BenignRun(job: Job, rounds: seq<Round>)
    requires Admissible(job.config, job.plans) && AllBenign(rounds)
    ensures Untouched(Run(job, true, rounds))
    decreases |rounds|
  {
    hide Admissible, Safe, Iterate, Round.Benign;
    if rounds != [] {
      var front := rounds[..|rounds| - 1];
      var s := Run(job, true, front);
      BenignRun(job, front);
      SafeIsInRange(job, s);
      if !s.ended {
        SafeRuns(job, s);
        BenignIteration(job, s, rounds[|rounds| - 1]);
      } else {
        EndedStays(job, s, rounds[|rounds| - 1]);
      }
    } else {
      LaunchIsUntouched(job);
    }
  }

  lemma EndedStays(job: Job, s: State, round: Round)
    requires s.ended && forall i :: i in s.pending ==> i < |job.plans|
    ensures Iterate(job, s, round) == s
  {
  }

  lemma SafeRuns(job: Job, s: State)
    requires Safe(job, s) && !s.ended
    ensures Running(job, s)
  {
  }

  lemma LaunchIsUntouched(job: Job)
    ensures Untouched(Launch(job, true))
  {
    var s := Launch(job, true);
    if job.plans != [] {
      assert 0 in s.pending;
    } else {
      assert s.pending == {};
    }
  }

  /** A benign run that has ended admitted and executed every plan once, and nothing is reserved. */
  lemma EverythingExecuted(job: Job, rounds: seq<Round>)
    requires Admissible(job.config, job.plans) && AllBenign(rounds) && Run(job, true, rounds).ended
    ensures var s := Run(job, true, rounds);
            && (forall i: nat :: i < |job.plans| ==>
                  s.admitted[i] == 1 && i in s.results && Ordered(job, s)[i].outcome.Clean())
            && forall a :: Balance(s.reserved, a) == 0.0
  {
    var s := Run(job, true, rounds);
    BenignRun(job, rounds);
    forall a ensures Balance(s.reserved, a) == 0.0 {
      NothingHeld(s.reserved, Requirements(job.plans), a);
    }
    hide Conserved;
  }

  /** Every wake-up of the schedule reports a running episode, as long as the run lasts. */
  ghost predicate AllProductive(job: Job, rounds: seq<Round>)
    requires Admissible(job.config, job.plans)
    decreases |rounds|
  {
    rounds == [] ||
    (var front := Run(job, true, rounds[..|rounds| - 1]);
     && AllProductive(job, rounds[..|rounds| - 1])
     && (forall i :: i in front.pending ==> i < |job.plans|)
     && (front.ended || Productive(job, front, rounds[|rounds| - 1])))
  }

  lemma OneMore(fewer: set<nat>, more: set<nat>)
    requires fewer < more
    ensures |fewer| < |more|
  {
    var i :| i in more && i !in fewer;
    SubsetSize(fewer + {i}, more);
  }

  lemma {:induction false} ResultsAccumulate(job: Job, rounds: seq<Round>)
    requires Admissible(job.config, job.plans) && AllBenign(rounds) && AllProductive(job, rounds)
    ensures Run(job, true, rounds).ended || |rounds| <= |Run(job, true, rounds).results.Keys|
    decreases |rounds|
  {
    hide Admissible, Safe, Iterate, Round.Benign, Productive, Waited, Untroubled;
    if rounds != [] {
      var front, round := rounds[..|rounds| - 1], rounds[|rounds| - 1];
      var s, t := Run(job, true, front), Run(job, true, rounds);
      ResultsAccumulate(job, front);
      BenignRun(job, front);
      SafeIsInRange(job, s);
      if s.ended {
        EndedStays(job, s, round);
      } else {
        SafeRuns(job, s);
        BenignIteration(job, s, round);
        OneMore(s.results.Keys, t.results.Keys);
      }
    }
  }

  /** With a result for as many plans as there are, none is waiting or running. */
  lemma AllFinished(n: nat, pending: set<nat>, active: set<nat>, finished: set<nat>)
    requires Partition(n, pending, active, finished) && |finished| >= n
    ensures pending == {} && active == {}
  {
    BelowSize(n);
    if i :| i in pending || i in active {
      SubsetSize(finished + {i}, Below(n));
    }
  }

  lemma SafePartition(job: Job, s: State)
    requires Safe(job, s)
    ensures Partition(|job.plans|, s.pending, s.active, s.results.Keys)
  {
    hide Partition, Conserved, Once, Named;
  }

  /** As many productive wake-ups as there are plans finish the run: it neither loses nor repeats work. */
  lemma FinishesInTime(job: Job, rounds: seq<Round>)
    requires Admissible(job.config, job.plans) && AllBenign(rounds) && AllProductive(job, rounds)
    requires |job.plans| <= |rounds|
    ensures Run(job, true, rounds).ended
  {
    hide Run, AllBenign, AllProductive, Admissible, Partition, Safe;
    var s := Run(job, true, rounds);
    ResultsAccumulate(job, rounds);
    BenignRun(job, rounds);
    if !s.ended {
      SafePartition(job, s);
      AllFinished(|job.plans|, s.pending, s.active, s.results.Keys);
    }
  }

  lemma {:induction false} BelowSize(n: nat)
    ensures |Below(n)| == n
  {
    if n > 0 {
      BelowSize(n - 1);
    }
  }
}