/** Whole runs of the coordinator: what every schedule keeps, and how a schedule ends. */
module CoordinatorTheorems {
  import opened Resources
  import opened CoordinatorSpec
  import opened CoordinatorInvariants
  import opened CoordinatorAdmission
  import opened CoordinatorCompletion

  // ----- one iteration

  lemma IdleIsQuarantined(job: Job, s: State)
    requires Running(job, s) && s.active == {}
    ensures s.held == s.quarantine
  {
    if job.config.policy == TerminalWaves {
      if s.heldGroups != {} {
        HeldWaveRuns(job, s);
      }
      NoWaveMeansIdle(job, s);
    }
  }

  lemma IdleEnds(job: Job, s: State)
    requires Running(job, s) && s.active == {}
    ensures Ended(job, s.(ended := true))
  {
    IdleIsQuarantined(job, s);
    hide Balanced, Once, Named;
  }

  lemma FlagsDoNotMatter(job: Job, s: State, cancelled: bool, ended: bool)
    requires Running(job, s)
    ensures Running(job, s.(cancelled := cancelled, ended := ended))
  {
    hide Balanced, Once, Named, Counted, OpenGroups, Admissible, Whole, Holds, Partition;
  }

  lemma NoticeRuns(job: Job, s: State, round: Round)
    requires Running(job, s)
    ensures Running(job, Notice(s, round))
  {
    HaltRuns(job, s);
  }

  /** What one iteration does to a state. */
  ghost predicate Iterated(job: Job, s: State, round: Round, t: State) {
    && Safe(job, t) && Advances(s, t)
    && (s.stopped || s.cancelled || round.cancelled ==> t.admitted == s.admitted)
    && (t.ended || t.pending != {} || t.active != {})
  }

  lemma CompletionIterated(job: Job, s: State, round: Round, ready: State)
    requires Running(job, ready) && !ready.ended && Advances(s, ready)
    requires s.stopped || s.cancelled || round.cancelled ==> ready.admitted == s.admitted
    ensures var next := CompleteAll(job, ready, round.finished, round.closureUncertain);
            Iterated(job, s, round, next.(ended := next.pending == {} && next.active == {}))
  {
    hide Running, Advances, Ended, Notice;
    var next := CompleteAll(job, ready, round.finished, round.closureUncertain);
    CompleteAllRuns(job, ready, round.finished, round.closureUncertain);
    AdvancesOn(s, ready, next);
    EndingAdvances(s, next, next.pending == {} && next.active == {});
    if next.pending == {} && next.active == {} {
      IdleEnds(job, next);
    } else {
      FlagsDoNotMatter(job, next, next.cancelled, false);
    }
  }

  lemma EndingAdvances(s: State, t: State, ended: bool)
    requires Advances(s, t)
    ensures Advances(s, t.(ended := ended)) && Advances(s, t.(cancelled := true))
  {
  }

  lemma PhasedAdvances(job: Job, s: State, round: Round, t: State)
    requires Phased(job, Notice(s, round), round, t)
    ensures Advances(s, t)
    ensures s.stopped || s.cancelled || round.cancelled ==> t.admitted == s.admitted
  {
    hide Running, Ended, Round.Benign;
  }

  lemma StoppedIterated(job: Job, s: State, round: Round, ready: State, t: State)
    requires Safe(job, t) && Advances(s, ready) && Advances(ready, t) && t.admitted == ready.admitted
    requires t.ended || t.pending != {} || t.active != {}
    requires s.stopped || s.cancelled || round.cancelled ==> ready.admitted == s.admitted
    ensures Iterated(job, s, round, t)
  {
    hide Safe, Notice, Advances;
    AdvancesOn(s, ready, t);
  }

  /** Every iteration keeps the invariants, whatever the environment does. */
  lemma IterateSafe(job: Job, s: State, round: Round)
    requires Running(job, s) && !s.ended
    requires forall i :: i in s.pending ==> i < |job.plans|
    ensures Iterated(job, s, round, Iterate(job, s, round))
  {
    hide Running, Ended, AdmitPhase, Phased, Iterated, Drain, CompleteAll, Advances;
    var noticed := Notice(s, round);
    NoticeRuns(job, s, round);
    var ready := AdmitPhase(job, noticed, round);
    AdmitPhaseRuns(job, noticed, round);
    PhasedAdvances(job, s, round, ready);
    PhasedIsSafe(job, noticed, round, ready);
    Stands(ready);
    EndingAdvances(ready, ready, true);
    if ready.ended {
      StoppedIterated(job, s, round, ready, ready);
    } else if ready.active == {} {
      IdleEnds(job, ready);
      StoppedIterated(job, s, round, ready, ready.(ended := true));
    } else if noticed.cancelled && round.deadlinePassed {
      DrainEnds(job, ready);
      EndedIsEnded(job, Drain(job, ready));
      StoppedIterated(job, s, round, ready, Drain(job, ready));
    } else if round.interrupted {
      FlagsDoNotMatter(job, ready, true, false);
      StoppedIterated(job, s, round, ready, ready.(cancelled := true));
    } else {
      CompletionIterated(job, s, round, ready);
    }
  }

  lemma PhasedIsSafe(job: Job, s: State, round: Round, t: State)
    requires Phased(job, s, round, t)
    ensures Safe(job, t)
  {
    hide Running, Ended;
  }

  lemma EndedIsEnded(job: Job, t: State)
    requires Ended(job, t)
    ensures t.ended && Safe(job, t)
  {
  }

  // ----- runs

  /** `run` before its loop: without its backends started it ends at once. */
  function Launch(job: Job, started: bool): State {
    if started then Initial(job) else Halt(Initial(job)).(ended := true)
  }

  lemma LaunchSafe(job: Job, started: bool)
    requires Admissible(job.config, job.plans)
    ensures Safe(job, Launch(job, started))
  {
    InitialRuns(job);
    IdleEnds(job, Initial(job));
    IdleEnds(job, Halt(Initial(job)));
    hide Running, Ended;
  }

  lemma SafeIsInRange(job: Job, s: State)
    requires Safe(job, s)
    ensures forall i :: i in s.pending ==> i < |job.plans|
  {
  }

  lemma SafeStaysSafe(job: Job, s: State, round: Round)
    requires Safe(job, s)
    requires forall i :: i in s.pending ==> i < |job.plans|
    ensures Safe(job, Iterate(job, s, round)) && Advances(s, Iterate(job, s, round))
    ensures s.stopped || s.cancelled || round.cancelled ==> Iterate(job, s, round).admitted == s.admitted
  {
    if s.ended {
      Stands(s);
    } else {
      IterateSafe(job, s, round);
    }
    hide Running, Ended, Advances;
  }

  /** The state after any finite schedule, and with it every state a run can reach. */
  ghost function Run(job: Job, started: bool, rounds: seq<Round>): (s: State)
    requires Admissible(job.config, job.plans)
    ensures Safe(job, s)
    decreases |rounds|
  {
    hide Safe, Admissible, Iterate;
    if rounds == [] then
      LaunchSafe(job, started);
      Launch(job, started)
    else
      var front := Run(job, started, rounds[..|rounds| - 1]);
      SafeIsInRange(job, front);
      SafeStaysSafe(job, front, rounds[|rounds| - 1]);
      Iterate(job, front, rounds[|rounds| - 1])
  }

  lemma {:induction false} RunAdvances(job: Job, started: bool, rounds: seq<Round>, k: nat)
    requires Admissible(job.config, job.plans) && k <= |rounds|
    ensures Advances(Run(job, started, rounds[..k]), Run(job, started, rounds))
    decreases |rounds|
  {
    hide Admissible, Safe, Iterate, Advances;
    if k == |rounds| {
      assert rounds[..k] == rounds;
      Stands(Run(job, started, rounds));
    } else {
      var front := rounds[..|rounds| - 1];
      assert front[..k] == rounds[..k];
      RunAdvances(job, started, front, k);
      SafeIsInRange(job, Run(job, started, front));
      SafeStaysSafe(job, Run(job, started, front), rounds[|rounds| - 1]);
      AdvancesOn(Run(job, started, rounds[..k]), Run(job, started, front), Run(job, started, rounds));
    }
  }

  /** Conservation, at every step of every schedule: what is reserved is exactly what is held, what is held
      belongs to plans that run, that wait in an unfinished wave, or that are quarantined, and no capacity
      is exceeded. */
  lemma ReservedIsHeld(job: Job, started: bool, rounds: seq<Round>, account: Account)
    requires Admissible(job.config, job.plans)
    ensures var s := Run(job, started, rounds);
            && Balance(s.reserved, account) == HeldTotal(Requirements(job.plans), s.held, account)
            && Balance(s.quarantined, account) == HeldTotal(Requirements(job.plans), s.quarantine, account)
            && (account.executor in job.config.capacities ==>
                  Balance(s.reserved, account) <= job.config.capacities[account.executor].Of(account.quantity))
            && (!s.ended ==> forall i: nat :: i < |job.plans| ==>
                  (i in s.held <==> i in s.active || i in s.quarantine
                                    || (job.config.policy == TerminalWaves && job.plans[i].group in s.heldGroups)))
  {
    var s := Run(job, started, rounds);
    assert Conserved(job, s);
    if !s.ended && job.config.policy == TerminalWaves {
      forall i | i in s.active ensures i in s.held {
        ActiveIsHeld(job, s, i);
      }
    }
  }

  /** Quarantined amounts never shrink. */
  lemma QuarantineNeverShrinks(job: Job, started: bool, rounds: seq<Round>, k: nat, account: Account)
    requires Admissible(job.config, job.plans) && k <= |rounds|
    ensures Balance(Run(job, started, rounds[..k]).quarantined, account)
            <= Balance(Run(job, started, rounds).quarantined, account)
  {
    var s, t := Run(job, started, rounds[..k]), Run(job, started, rounds);
    ReservedIsHeld(job, started, rounds[..k], account);
    ReservedIsHeld(job, started, rounds, account);
    RunAdvances(job, started, rounds, k);
    assert s.quarantine <= t.quarantine;
    TotalMonotone(Requirements(job.plans), s.quarantine, t.quarantine, account, |job.plans|);
  }

  /** Once the loop has ended, whether normally, by cancellation or at the drain deadline, nothing is
      reserved but what is quarantined. */
  lemma EndsQuarantinedOnly(job: Job, started: bool, rounds: seq<Round>, account: Account)
    requires Admissible(job.config, job.plans) && Run(job, started, rounds).ended
    ensures var s := Run(job, started, rounds);
            s.active == {} && Balance(s.reserved, account) == Balance(s.quarantined, account)
  {
    ReservedIsHeld(job, started, rounds, account);
  }

  /** Once a run is stopped it admits nothing more. */
  lemma {:induction false} StoppedAdmitsNothing(job: Job, started: bool, rounds: seq<Round>, k: nat)
    requires Admissible(job.config, job.plans) && k <= |rounds| && Run(job, started, rounds[..k]).stopped
    ensures Run(job, started, rounds).admitted == Run(job, started, rounds[..k]).admitted
    decreases |rounds|
  {
    hide Admissible, Safe, Iterate;
    if k == |rounds| {
      assert rounds[..k] == rounds;
    } else {
      var front := rounds[..|rounds| - 1];
      assert front[..k] == rounds[..k];
      StoppedAdmitsNothing(job, started, front, k);
      RunAdvances(job, started, front, k);
      SafeIsInRange(job, Run(job, started, front));
      SafeStaysSafe(job, Run(job, started, front), rounds[|rounds| - 1]);
    }
  }

  /** One result per plan, in the order given: a plan was admitted once and has the result recorded for it,
      or was never admitted and says so. A recorded result is never replaced. */
  lemma OneResultEach(job: Job, started: bool, rounds: seq<Round>, k: nat)
    requires Admissible(job.config, job.plans) && k <= |rounds| && Run(job, started, rounds).ended
    ensures var s := Run(job, started, rounds);
            var prior := Run(job, started, rounds[..k]);
            forall i: nat :: i < |job.plans| ==>
              && Ordered(job, s)[i].identity == job.plans[i].identity
              && s.admitted[i] == (if i in s.results then 1 else 0)
              && (s.admitted[i] == 0 ==> Ordered(job, s)[i] == NotAdmittedResult(job.plans[i]))
              && (i in prior.results ==> Ordered(job, s)[i] == prior.results[i])
  {
    RunAdvances(job, started, rounds, k);
  }
}
