/** Who waits on a stream's condition, and for what. A waiter checks once and then sleeps until it is notified, which
    every release of a charge does, and every pause, but no cancellation. */
module StreamWaiters {
  import opened Resources
  import opened CoordinatorSpec
  import opened StreamSpec
  import opened StreamTheorems
  import opened StreamResults

  /** Some executor has a limited, positive amount of something. */
  ghost predicate Scarce(config: StreamConfig) {
    exists a: Account :: a.executor in config.limits.capacities && Limited(config, a)
  }

  predicate Limited(config: StreamConfig, a: Account)
    requires a.executor in config.limits.capacities
  {
    config.limits.capacities[a.executor].Of(a.quantity) > 0.0
  }

  /** Somebody sleeps only while charges are held, none of them quarantined. */
  ghost predicate Drowsy(config: StreamConfig, s: Stream) {
    s.asleep != {} ==> s.held != {} && s.quarantine == {} && Scarce(config)
  }

  // ----- what a check in vain means

  lemma OneFitsWhenEmpty(config: StreamConfig, s: Stream, i: nat)
    requires Books(config, s) && s.held == {} && i < |s.plans|
    ensures Fits(s.reserved, config.limits.capacities, s.plans[i].requirement)
  {
    hide WithinCapacity, Credit;
    forall a ensures Balance(s.reserved, a) == 0.0 {
      NothingHeld(s.reserved, Requirements(s.plans), a);
    }
    assert Fits(map[], config.limits.capacities, s.plans[i].requirement);
  }

  /** An account with something reserved is limited to a positive amount, if it is limited at all. */
  lemma ReservedIsScarce(config: StreamConfig, s: Stream, a: Account)
    requires Books(config, s) && a.executor in config.limits.capacities && Balance(s.reserved, a) > 0.0
    ensures Scarce(config)
  {
    hide Fits, AllNonNegative, Accounts;
    assert Limited(config, a);
  }

  lemma WaveFindsNoRoom(config: StreamConfig, s: Stream, low: nat, high: nat)
    requires Books(config, s) && high <= |s.plans| && RangeFits(map[], config.limits.capacities, s.plans, low, high)
    requires !RangeFits(s.reserved, config.limits.capacities, s.plans, low, high)
    ensures s.held != {} && Scarce(config)
  {
    hide Books, Scarce, CreditRange;
    if s.held == {} {
      FitsWhenEmpty(config, s, low, high);
    }
    var capacities, totals := config.limits.capacities, CreditRange(map[], s.plans, low, high);
    var a :| a in totals && a.executor in capacities && Balance(s.reserved, a) + totals[a] > capacities[a.executor].Of(a.quantity);
    assert Balance(map[], a) + totals[a] <= capacities[a.executor].Of(a.quantity);
    ReservedIsScarce(config, s, a);
  }

  lemma PlanFindsNoRoom(config: StreamConfig, s: Stream, i: nat)
    requires Books(config, s) && i < |s.plans| && !Fits(s.reserved, config.limits.capacities, s.plans[i].requirement)
    ensures s.held != {} && Scarce(config)
  {
    hide Books, Scarce;
    if s.held == {} {
      OneFitsWhenEmpty(config, s, i);
    }
    AloneFits(config, s, i);
    var requirement := s.plans[i].requirement;
    var a := AccountOver(s.reserved, config.limits.capacities, requirement);
    ReservedIsScarce(config, s, a);
  }

  lemma AloneFits(config: StreamConfig, s: Stream, i: nat)
    requires Books(config, s) && i < |s.plans|
    ensures Fits(map[], config.limits.capacities, s.plans[i].requirement)
  {
    hide Balanced, Fits, AllNonNegative;
  }

  /** A wave that checks in vain finds no room on top of what is reserved, and the stream is not cancelled. */
  lemma ReserveInVain(config: StreamConfig, s: Stream, g: nat)
    requires g < |s.tasks| && s.tasks[g].phase.Reserving?
    requires s.tasks[g].start + s.tasks[g].offset + s.tasks[g].phase.size <= |s.plans|
    ensures Reserve(config, s, g).tasks == s.tasks <==>
              var low := s.tasks[g].start + s.tasks[g].offset;
              !s.cancelled && !RangeFits(s.reserved, config.limits.capacities, s.plans, low, low + s.tasks[g].phase.size)
    ensures Reserve(config, s, g).tasks == s.tasks ==> Reserve(config, s, g) == s
  {
    hide RangeFits, CreditRange, Range;
    assert Put(s, g, s.tasks[g].(phase := Choosing)).tasks[g].phase == Choosing;
    assert Put(s, g, s.tasks[g].(phase := Opening(s.tasks[g].phase.size))).tasks[g].phase.Opening?;
  }

  lemma GrantInVain(config: StreamConfig, s: Stream, g: nat, k: nat)
    requires At(s.tasks, g, k, Room) && PlanOf(s.tasks[g], k) < |s.plans|
    ensures Grant(config, s, g, k).tasks == s.tasks <==>
              !s.cancelled && !Fits(s.reserved, config.limits.capacities, s.plans[PlanOf(s.tasks[g], k)].requirement)
    ensures Grant(config, s, g, k).tasks == s.tasks ==> Grant(config, s, g, k) == s
  {
    hide Fits, Credit, PlanOf;
    assert PutMember(s, g, k, Working).tasks[g].phase.members[k] == Working;
    assert PutMember(s, g, k, Done(NOT_ADMITTED)).tasks[g].phase.members[k].Done?;
  }

  lemma WaveInPlans(config: StreamConfig, s: Stream, g: nat)
    requires Sound(config, s) && g < |s.tasks| && s.tasks[g].phase.Reserving?
    ensures var low, size := s.tasks[g].start + s.tasks[g].offset, s.tasks[g].phase.size;
            low + size <= |s.plans| && RangeFits(map[], config.limits.capacities, s.plans, low, low + size)
  {
    hide Sound, Bounds, Shape, Marks, WholeWaves, HistoryBelow, Books, RangeFits;
    SoundTask(config, s, g);
    ResultsSoFar(config, s.plans, s.cancelled, s.tasks[g]);
  }

  lemma MemberInPlans(config: StreamConfig, s: Stream, g: nat, k: nat, member: Member)
    requires Sound(config, s) && At(s.tasks, g, k, member)
    ensures g < |s.tasks| && PlanOf(s.tasks[g], k) < s.tasks[g].stop <= |s.plans|
  {
    hide Sound, Bounds, Shape, Marks, WholeWaves, HistoryBelow, Books;
    SoundTask(config, s, g);
    ResultsSoFar(config, s.plans, s.cancelled, s.tasks[g]);
  }

  lemma SoundBooks(config: StreamConfig, s: Stream)
    requires Sound(config, s)
    ensures Books(config, s) && config.Valid()
  {
    hide Books, Bounds, Owners, TaskOk;
  }

  // ----- every step

  /** A step that wakes nobody, and releases and quarantines nothing. */
  ghost predicate Steady(s: Stream, t: Stream) {
    t.asleep == s.asleep && s.held <= t.held && t.quarantine == s.quarantine
  }

  lemma SubmitSteady(config: StreamConfig, s: Stream, plans: seq<Plan>, sequence: int)
    ensures Steady(s, Submit(config, s, plans, sequence))
  {
    hide CheckSubmission, OwnersAfter;
  }

  lemma EnterSteady(config: StreamConfig, s: Stream, g: nat)
    requires g < |s.tasks|
    ensures Steady(s, Enter(config, s, g))
  {
  }

  lemma ChooseSteady(config: StreamConfig, s: Stream, g: nat)
    requires g < |s.tasks|
    ensures Steady(s, Choose(config, s, g))
  {
    hide Chosen;
  }

  lemma AdmittedSteady(s: Stream, g: nat, ok: bool)
    requires g < |s.tasks|
    ensures Steady(s, Admitted(s, g, ok))
  {
  }

  lemma GatheredSteady(s: Stream, g: nat, uncertain: bool)
    requires g < |s.tasks|
    ensures Steady(s, Gathered(s, g, uncertain))
  {
    hide AllDone, Outcomes, Identified;
  }

  lemma HandBackSteady(s: Stream, g: nat)
    requires g < |s.tasks|
    ensures Steady(s, HandBack(s, g))
  {
  }

  lemma ReserveSteady(config: StreamConfig, s: Stream, g: nat)
    requires g < |s.tasks|
    ensures Steady(s, Reserve(config, s, g))
  {
    hide RangeFits, CreditRange, Range;
  }

  lemma PutMemberSteady(s: Stream, g: nat, k: nat, member: Member)
    requires g < |s.tasks| && s.tasks[g].phase.Collecting? && k < |s.tasks[g].phase.members|
    ensures PutMember(s, g, k, member) == s.(tasks := PutMember(s, g, k, member).tasks)
  {
  }

  lemma StartSteady(config: StreamConfig, s: Stream, g: nat, k: nat)
    ensures Steady(s, Start(config, s, g, k))
  {
    hide PutMember, PlanOf;
    if At(s.tasks, g, k, Waiting) {
      PutMemberSteady(s, g, k, Room);
      PutMemberSteady(s, g, k, Working);
      PutMemberSteady(s, g, k, Done(NOT_ADMITTED));
    }
  }

  lemma GrantSteady(config: StreamConfig, s: Stream, g: nat, k: nat)
    ensures Steady(s, Grant(config, s, g, k))
  {
    hide Fits, Credit, PutMember, PlanOf;
    if At(s.tasks, g, k, Room) {
      PutMemberSteady(s, g, k, Working);
      PutMemberSteady(s, g, k, Done(NOT_ADMITTED));
    }
  }

  lemma SteadyIsDrowsy(config: StreamConfig, s: Stream, t: Stream)
    requires Drowsy(config, s) && Steady(s, t)
    ensures Drowsy(config, t)
  {
    hide Scarce;
  }

  lemma ReserveIsDrowsy(config: StreamConfig, s: Stream, g: nat)
    requires Sound(config, s) && Drowsy(config, s) && g < |s.tasks| && s.tasks[g].phase.Reserving?
    ensures Drowsy(config, Attempt(s, OfWave(g), Reserve(config, s, g)))
  {
    hide Sound, Reserve, Scarce, Steady, RangeFits;
    ReserveSteady(config, s, g);
    SteadyIsDrowsy(config, s, Reserve(config, s, g));
    if Reserve(config, s, g) == s {
      var low := s.tasks[g].start + s.tasks[g].offset;
      SoundBooks(config, s);
      StillQuarantined(config, s);
      WaveInPlans(config, s, g);
      ReserveInVain(config, s, g);
      WaveFindsNoRoom(config, s, low, low + s.tasks[g].phase.size);
    }
  }

  lemma GrantIsDrowsy(config: StreamConfig, s: Stream, g: nat, k: nat)
    requires Sound(config, s) && Drowsy(config, s) && At(s.tasks, g, k, Room)
    ensures Drowsy(config, Attempt(s, OfPlan(g, k), Grant(config, s, g, k)))
  {
    hide Sound, Grant, Scarce, Steady, Fits;
    GrantSteady(config, s, g, k);
    SteadyIsDrowsy(config, s, Grant(config, s, g, k));
    if Grant(config, s, g, k) == s {
      SoundBooks(config, s);
      StillQuarantined(config, s);
      MemberInPlans(config, s, g, k, Room);
      GrantInVain(config, s, g, k);
      PlanFindsNoRoom(config, s, PlanOf(s.tasks[g], k));
    }
  }

  lemma StepDrowsy(config: StreamConfig, s: Stream, event: Event)
    requires Sound(config, s) && Drowsy(config, s)
    ensures Drowsy(config, Step(config, s, event))
  {
    hide Sound, Drowsy, Attempt, Steady, AllReturned;
    hide Submit, Enter, Choose, Reserve, Admitted, Start, Grant, Finish, Gathered, Settle, HandBack;
    match event
    case Submission(plans, sequence) =>
      SubmitSteady(config, s, plans, sequence);
      SteadyIsDrowsy(config, s, Submit(config, s, plans, sequence));
    case Entering(g) =>
      if g < |s.tasks| {
        EnterSteady(config, s, g);
        SteadyIsDrowsy(config, s, Enter(config, s, g));
      }
    case LoopHead(g) =>
      if g < |s.tasks| {
        ChooseSteady(config, s, g);
        SteadyIsDrowsy(config, s, Choose(config, s, g));
      }
    case Reserved(g) => if g < |s.tasks| && s.tasks[g].phase.Reserving? { ReserveIsDrowsy(config, s, g); }
    case HookReturned(g, ok) =>
      if g < |s.tasks| {
        AdmittedSteady(s, g, ok);
        SteadyIsDrowsy(config, s, Admitted(s, g, ok));
      }
    case Started(g, k) =>
      StartSteady(config, s, g, k);
      SteadyIsDrowsy(config, s, Start(config, s, g, k));
    case Granted(g, k) => if At(s.tasks, g, k, Room) { GrantIsDrowsy(config, s, g, k); }
    case Finished(g, k, outcome) => AwakeIsDrowsy(config, Finish(s, g, k, outcome));
    case BatchEnded(g, uncertain) =>
      if g < |s.tasks| {
        GatheredSteady(s, g, uncertain);
        SteadyIsDrowsy(config, s, Gathered(s, g, uncertain));
      }
    case Settled(g) => if g < |s.tasks| { AwakeIsDrowsy(config, Settle(s, g)); }
    case Handed(g) =>
      if g < |s.tasks| {
        HandBackSteady(s, g);
        SteadyIsDrowsy(config, s, HandBack(s, g));
      }
    case Cancellation => SameIsDrowsy(config, s, s.(cancelled := true));
    case Pausing => AwakeIsDrowsy(config, s.(paused := true));
    case Resuming => SameIsDrowsy(config, s, s.(paused := false));
    case Closing => AwakeIsDrowsy(config, s.(paused := true, closed := true));
  }

  lemma SameIsDrowsy(config: StreamConfig, s: Stream, t: Stream)
    requires Drowsy(config, s) && t.asleep == s.asleep && t.held == s.held && t.quarantine == s.quarantine
    ensures Drowsy(config, t)
  {
    hide Scarce;
  }

  lemma AwakeIsDrowsy(config: StreamConfig, t: Stream)
    ensures Drowsy(config, t.(asleep := {}))
  {
  }

  lemma {:induction false} ExecuteDrowsy(config: StreamConfig, events: seq<Event>)
    requires config.Valid() && GoodEvents(events)
    ensures Drowsy(config, Execute(config, events))
  {
    hide Sound, Step, GoodEvent, Scarce;
    if events != [] {
      var earlier := events[..|events| - 1];
      ExecuteSound(config, earlier);
      ExecuteDrowsy(config, earlier);
      StepDrowsy(config, Execute(config, earlier), events[|events| - 1]);
    }
  }
}
