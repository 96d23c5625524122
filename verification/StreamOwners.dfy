/** Whom backend-stage executors belong to on an open stream: the first backend with a plan for them, even if the
    submission that brought the plan was refused. */
module StreamOwners {
  import opened Wrappers
  import opened Resources
  import opened CoordinatorSpec
  import opened StreamSpec
  import opened StreamGroups

  type Owners = map<Executor, Name>

  ghost predicate Extends(before: Owners, after: Owners) {
    forall e :: e in before ==> e in after && after[e] == before[e]
  }

  lemma {:induction false} ClaimsExtend(owners: Owners, backend: Name, plans: seq<Plan>, m: nat, n: nat)
    requires m <= n <= |plans|
    ensures Extends(Claims(owners, backend, plans, m), Claims(owners, backend, plans, n))
    decreases n
  {
    if m < n {
      ClaimsExtend(owners, backend, plans, m, n - 1);
    }
  }

  /** Accepted plans own their stage's executor together with their backend. */
  lemma AcceptedOwns(capacities: Capacities, owners: Owners, backend: Name, plans: seq<Plan>, i: nat, n: nat)
    requires i < n <= |plans| && !plans[i].requirement.episodeScoped
    requires Acceptable(capacities, Claims(owners, backend, plans, i), backend, plans[i].requirement)
    ensures var e, after := plans[i].requirement.executor, Claims(owners, backend, plans, n);
            e in after && after[e] == backend
  {
    hide Fits;
    var e := plans[i].requirement.executor;
    assert e in Claims(owners, backend, plans, i + 1) && Claims(owners, backend, plans, i + 1)[e] == backend;
    ClaimsExtend(owners, backend, plans, i + 1, n);
  }

  lemma {:induction false} NothingToClaim(owners: Owners, backend: Name, plans: seq<Plan>, n: nat)
    requires n <= |plans|
    ensures Claims(owners, backend, plans, n) == owners <==>
              forall i :: 0 <= i < n ==> plans[i].requirement.episodeScoped || plans[i].requirement.executor in owners
    decreases n
  {
    if n > 0 {
      NothingToClaim(owners, backend, plans, n - 1);
      ClaimsExtend(owners, backend, plans, 0, n - 1);
      var before, last := Claims(owners, backend, plans, n - 1), plans[n - 1].requirement;
      if before == owners {
        assert Claims(owners, backend, plans, n) == owners <==> last.episodeScoped || last.executor in owners;
      } else {
        StillClaimed(owners, before, Claims(owners, backend, plans, n));
      }
    }
  }

  lemma StillClaimed(owners: Owners, before: Owners, after: Owners)
    requires Extends(owners, before) && before.Keys <= after.Keys && before != owners
    ensures after != owners
  {
    if after == owners {
      SameKeys(owners, before);
    }
  }

  lemma SameKeys(owners: Owners, before: Owners)
    requires Extends(owners, before) && before.Keys <= owners.Keys
    ensures before == owners
  {
  }

  // ----- refused submissions

  /** A refused submission leaves no group behind, and changes no owner exactly if it was refused as a whole, or no
      plan before the refused one is for an executor that had no owner yet. */
  lemma RefusalLeaves(config: StreamConfig, s: Stream, plans: seq<Plan>, sequence: int)
    requires CheckSubmission(config, s, plans, sequence) != None
    ensures var t := Submit(config, s, plans, sequence);
            && t == s.(owners := t.owners) && Extends(s.owners, t.owners)
            && (t.owners == s.owners <==>
                  CheckGroup(config, s, plans, sequence) != None
                  || forall i :: 0 <= i < Refused(config, s, plans) ==>
                       plans[i].requirement.episodeScoped || plans[i].requirement.executor in s.owners)
  {
    hide CheckGroup, Claims, FirstRefused, Refused, StageTaken;
    if CheckGroup(config, s, plans, sequence) == None {
      GroupOk(config, s, plans, sequence);
      var backend, n := config.limits.backends[plans[0].group.benchmark], Refused(config, s, plans);
      NothingToClaim(s.owners, backend, plans, n);
      ClaimsExtend(s.owners, backend, plans, 0, n);
      NoClaims(s.owners, backend, plans);
    }
  }

  lemma NoClaims(owners: Owners, backend: Name, plans: seq<Plan>)
    ensures Claims(owners, backend, plans, 0) == owners
  {
  }

  lemma GroupOk(config: StreamConfig, s: Stream, plans: seq<Plan>, sequence: int)
    requires CheckGroup(config, s, plans, sequence) == None
    ensures plans != [] && plans[0].group.benchmark in config.limits.backends
    ensures forall i :: 0 <= i < |plans| ==> plans[i].group == plans[0].group
  {
  }

  // ----- whole runs

  /** Every submitted plan of a backend's stage has its executor for its backend. */
  ghost predicate AllOwned(config: StreamConfig, plans: seq<Plan>, owners: Owners) {
    forall i :: 0 <= i < |plans| && !plans[i].requirement.episodeScoped ==>
      && plans[i].group.benchmark in config.limits.backends && plans[i].requirement.executor in owners
      && owners[plans[i].requirement.executor] == config.limits.backends[plans[i].group.benchmark]
  }

  /** The plans of an accepted group, with the owners they leave. */
  lemma GroupOwned(config: StreamConfig, s: Stream, plans: seq<Plan>, sequence: int)
    requires CheckSubmission(config, s, plans, sequence) == None
    ensures AllOwned(config, plans, OwnersAfter(config, s, plans, sequence))
  {
    hide CheckGroup, Claims, Acceptable, StageTaken;
    GroupOk(config, s, plans, sequence);
    var backend := config.limits.backends[plans[0].group.benchmark];
    forall i | 0 <= i < |plans| && !plans[i].requirement.episodeScoped
      ensures var e, after := plans[i].requirement.executor, OwnersAfter(config, s, plans, sequence);
              e in after && after[e] == backend
    {
      AcceptedOwns(config.limits.capacities, s.owners, backend, plans, i, |plans|);
    }
  }

  lemma OwnersExtend(config: StreamConfig, s: Stream, plans: seq<Plan>, sequence: int)
    ensures Extends(s.owners, OwnersAfter(config, s, plans, sequence))
  {
    hide CheckGroup, Claims, Refused;
    if CheckGroup(config, s, plans, sequence) == None {
      GroupOk(config, s, plans, sequence);
      var backend, n := config.limits.backends[plans[0].group.benchmark], Refused(config, s, plans);
      ClaimsExtend(s.owners, backend, plans, 0, n);
      NoClaims(s.owners, backend, plans);
    }
  }

  lemma OwnedTogether(config: StreamConfig, plans: seq<Plan>, more: seq<Plan>, owners: Owners, after: Owners)
    requires AllOwned(config, plans, owners) && Extends(owners, after)
    ensures AllOwned(config, plans, after)
    ensures AllOwned(config, more, after) ==> AllOwned(config, plans + more, after)
  {
  }

  lemma SubmitOwned(config: StreamConfig, s: Stream, plans: seq<Plan>, sequence: int)
    requires AllOwned(config, s.plans, s.owners)
    ensures var t := Submit(config, s, plans, sequence); AllOwned(config, t.plans, t.owners) && Extends(s.owners, t.owners)
  {
    hide CheckSubmission, OwnersAfter, AllOwned, Extends;
    var after := OwnersAfter(config, s, plans, sequence);
    OwnersExtend(config, s, plans, sequence);
    OwnedTogether(config, s.plans, plans, s.owners, after);
    if CheckSubmission(config, s, plans, sequence) == None {
      GroupOwned(config, s, plans, sequence);
    }
  }

  lemma SubmissionIs(config: StreamConfig, s: Stream, event: Event)
    requires event.Submission?
    ensures Step(config, s, event) == Submit(config, s, event.plans, event.sequence)
  {
    hide Submit;
  }

  lemma StepOwned(config: StreamConfig, s: Stream, event: Event)
    requires AllOwned(config, s.plans, s.owners)
    ensures var t := Step(config, s, event); AllOwned(config, t.plans, t.owners) && Extends(s.owners, t.owners)
  {
    hide AllOwned, Step;
    if event.Submission? {
      SubmissionIs(config, s, event);
      SubmitOwned(config, s, event.plans, event.sequence);
    } else {
      StepSameGroups(config, s, event);
    }
  }

  lemma {:induction false} ExecuteOwned(config: StreamConfig, events: seq<Event>)
    ensures var s := Execute(config, events); AllOwned(config, s.plans, s.owners)
  {
    hide Step;
    if events != [] {
      ExecuteOwned(config, events[..|events| - 1]);
      StepOwned(config, Execute(config, events[..|events| - 1]), events[|events| - 1]);
    }
  }

  /** All plans ever accepted for one backend-stage executor belong to one backend. */
  lemma StageHasOneOwner(config: StreamConfig, events: seq<Event>, i: nat, j: nat)
    requires var plans := Execute(config, events).plans;
             && i < |plans| && j < |plans|
             && !plans[i].requirement.episodeScoped && !plans[j].requirement.episodeScoped
             && plans[i].requirement.executor == plans[j].requirement.executor
    ensures var plans := Execute(config, events).plans;
            && plans[i].group.benchmark in config.limits.backends && plans[j].group.benchmark in config.limits.backends
            && config.limits.backends[plans[i].group.benchmark] == config.limits.backends[plans[j].group.benchmark]
  {
    hide Execute;
    ExecuteOwned(config, events);
  }

  /** Nobody ever loses an executor. */
  lemma {:induction false} OwnersStay(config: StreamConfig, events: seq<Event>, k: nat)
    requires k <= |events|
    ensures Extends(Execute(config, events[..k]).owners, Execute(config, events).owners)
    decreases |events|
  {
    hide Step;
    if k == |events| {
      assert events[..k] == events;
    } else {
      var front := events[..|events| - 1];
      assert front[..k] == events[..k];
      OwnersStay(config, front, k);
      ExecuteOwned(config, front);
      StepOwned(config, Execute(config, front), events[|events| - 1]);
    }
  }

  // ----- a refused submission that keeps another backend out

  const STAGE := Executor("stage")
  const SMALL := Executor("small")
  const FIRST := Group(Name("first"), Name("g"), 0)
  const SECOND := Group(Name("second"), Name("h"), 0)
  const ON_STAGE := Requirement(STAGE, 0.0, 0.0, 0.0, 0.0, false)
  const TOO_MUCH := Requirement(SMALL, 2.0, 0.0, 0.0, 0.0, true)
  const REFUSED := [Plan(Name("a"), Name("run"), FIRST, ON_STAGE), Plan(Name("b"), Name("run"), FIRST, TOO_MUCH)]
  const SHUT_OUT := [Plan(Name("c"), Name("run"), SECOND, ON_STAGE)]
  const CONFIG := StreamConfig(
    Config(1, 1, NativeGroups, map[SMALL := Requirement(SMALL, 1.0, 0.0, 0.0, 0.0, true)],
           map[Name("first") := Name("first"), Name("second") := Name("second")]),
    2, {})

  lemma SecondIsRefused()
    ensures CheckGroup(CONFIG, Opened(), REFUSED, 0) == None && Refused(CONFIG, Opened(), REFUSED) == 1
  {
    assert REFUSED[0].identity != REFUSED[1].identity;
    assert Claims(map[], Name("first"), REFUSED, 0) == map[];
    assert Acceptable(CONFIG.limits.capacities, map[], Name("first"), ON_STAGE);
    assert !Acceptable(CONFIG.limits.capacities, Claims(map[], Name("first"), REFUSED, 1), Name("first"), TOO_MUCH);
  }

  lemma StageIsClaimed()
    ensures CheckSubmission(CONFIG, Opened(), REFUSED, 0) == Some(TooLarge)
    ensures Submit(CONFIG, Opened(), REFUSED, 0) == Opened().(owners := map[STAGE := Name("first")])
  {
    hide CheckGroup, Refused, FirstRefused, Fits;
    SecondIsRefused();
    assert Claims(map[], Name("first"), REFUSED, 0) == map[];
    assert Claims(map[], Name("first"), REFUSED, 1) == map[STAGE := Name("first")];
  }

  /** Nothing was ever accepted, and yet the other backend cannot have the executor any more. */
  lemma RefusedGroupShutsOut()
    ensures CheckSubmission(CONFIG, Opened(), SHUT_OUT, 0) == None
    ensures CheckSubmission(CONFIG, Submit(CONFIG, Opened(), REFUSED, 0), SHUT_OUT, 0) == Some(SharedStage)
    ensures Submit(CONFIG, Opened(), REFUSED, 0).plans == []
  {
    hide Submit;
    StageIsClaimed();
    assert Claims(map[], Name("second"), SHUT_OUT, 0) == map[];
    assert Claims(map[STAGE := Name("first")], Name("second"), SHUT_OUT, 0) == map[STAGE := Name("first")];
  }
}
