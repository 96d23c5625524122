/** Who sleeps on a stream's condition, and that no cancellation wakes them. */
module StreamSleepers {
  import opened Resources
  import opened CoordinatorSpec
  import opened StreamSpec
  import opened StreamTheorems
  import opened StreamWaiters
  import opened StreamProgress
  import opened StreamDeadlock

  /** The event is a check by the waiter, on a stream that is not cancelled and has no room for what it waits for. */
  predicate ChecksInVain(config: StreamConfig, s: Stream, event: Event, waiter: Waiter) {
    match event
    case Reserved(g) =>
      && waiter == OfWave(g) && g < |s.tasks| && s.tasks[g].phase.Reserving? && !s.cancelled
      && s.tasks[g].start + s.tasks[g].offset + s.tasks[g].phase.size <= |s.plans|
      && !RangeFits(s.reserved, config.limits.capacities, s.plans, s.tasks[g].start + s.tasks[g].offset,
                    s.tasks[g].start + s.tasks[g].offset + s.tasks[g].phase.size)
    case Granted(g, k) =>
      && waiter == OfPlan(g, k) && At(s.tasks, g, k, Room) && !s.cancelled && PlanOf(s.tasks[g], k) < |s.plans|
      && !Fits(s.reserved, config.limits.capacities, s.plans[PlanOf(s.tasks[g], k)].requirement)
    case _ => false
  }

  /** An episode ends, a wave settles, or the stream is paused or closed. */
  predicate Notifies(s: Stream, event: Event) {
    match event
    case Finished(g, k, _) => At(s.tasks, g, k, Working)
    case Settled(g) => g < |s.tasks| && s.tasks[g].phase.Settling?
    case Pausing => true
    case Closing => AllReturned(s)
    case _ => false
  }

  // ----- who sleeps

  lemma WaveChecks(config: StreamConfig, s: Stream, g: nat, waiter: Waiter)
    requires Sound(config, s)
    ensures waiter in Step(config, s, Reserved(g)).asleep <==>
              ChecksInVain(config, s, Reserved(g), waiter) || waiter in s.asleep
  {
    hide Sound, Reserve, RangeFits;
    if g < |s.tasks| && s.tasks[g].phase.Reserving? {
      WaveInPlans(config, s, g);
      ReserveInVain(config, s, g);
      ReserveSteady(config, s, g);
    }
  }

  lemma PlanChecks(config: StreamConfig, s: Stream, g: nat, k: nat, waiter: Waiter)
    requires Sound(config, s)
    ensures waiter in Step(config, s, Granted(g, k)).asleep <==>
              ChecksInVain(config, s, Granted(g, k), waiter) || waiter in s.asleep
  {
    hide Sound, Grant, Fits, PlanOf;
    if At(s.tasks, g, k, Room) {
      MemberInPlans(config, s, g, k, Room);
      GrantInVain(config, s, g, k);
      GrantSteady(config, s, g, k);
    }
  }

  lemma FinishNotifies(config: StreamConfig, s: Stream, g: nat, k: nat, outcome: Outcome)
    requires Sound(config, s)
    ensures Step(config, s, Finished(g, k, outcome)).asleep == if At(s.tasks, g, k, Working) then {} else s.asleep
  {
    hide Sound, PlanOf;
    if At(s.tasks, g, k, Working) {
      MemberInPlans(config, s, g, k, Working);
      FinishMoves(s, g, k, outcome);
    }
  }

  lemma SettleNotifies(config: StreamConfig, s: Stream, g: nat)
    requires Sound(config, s) && g < |s.tasks|
    ensures Step(config, s, Settled(g)).asleep == if s.tasks[g].phase.Settling? then {} else s.asleep
  {
    hide Sound, Bounds, Shape, Marks, WholeWaves, HistoryBelow, Books;
    if s.tasks[g].phase.Settling? {
      SoundTask(config, s, g);
      ResultsSoFar(config, s.plans, s.cancelled, s.tasks[g]);
      SettleMoves(s, g);
    }
  }

  lemma StepSleepers(config: StreamConfig, s: Stream, event: Event, waiter: Waiter)
    requires Sound(config, s)
    ensures waiter in Step(config, s, event).asleep <==>
              ChecksInVain(config, s, event, waiter) || (waiter in s.asleep && !Notifies(s, event))
  {
    hide Sound, Attempt, Notified, AllReturned, RangeFits, Fits, PlanOf;
    hide Submit, Enter, Choose, Reserve, Admitted, Start, Grant, Finish, Gathered, Settle, HandBack;
    match event
    case Submission(plans, sequence) => SubmitSteady(config, s, plans, sequence);
    case Entering(g) => if g < |s.tasks| { EnterSteady(config, s, g); }
    case LoopHead(g) => if g < |s.tasks| { ChooseSteady(config, s, g); }
    case Reserved(g) => WaveChecks(config, s, g, waiter);
    case HookReturned(g, ok) => if g < |s.tasks| { AdmittedSteady(s, g, ok); }
    case Started(g, k) => StartSteady(config, s, g, k);
    case Granted(g, k) => PlanChecks(config, s, g, k, waiter);
    case Finished(g, k, outcome) => FinishNotifies(config, s, g, k, outcome);
    case BatchEnded(g, uncertain) => if g < |s.tasks| { GatheredSteady(s, g, uncertain); }
    case Settled(g) => if g < |s.tasks| { SettleNotifies(config, s, g); }
    case Handed(g) => if g < |s.tasks| { HandBackSteady(s, g); }
    case Cancellation =>
    case Pausing =>
    case Resuming =>
    case Closing =>
  }

  /** The waiter checked in vain at event k, and nothing has notified it since. */
  ghost predicate SleepsSince(config: StreamConfig, events: seq<Event>, waiter: Waiter, k: nat) {
    && k < |events| && ChecksInVain(config, Execute(config, events[..k]), events[k], waiter)
    && forall j :: k < j < |events| ==> !Notifies(Execute(config, events[..j]), events[j])
  }

  lemma SleepsOn(config: StreamConfig, events: seq<Event>, waiter: Waiter, k: nat)
    requires events != [] && k < |events| - 1
    ensures var n := |events| - 1;
            SleepsSince(config, events, waiter, k) <==>
            SleepsSince(config, events[..n], waiter, k) && !Notifies(Execute(config, events[..n]), events[n])
  {
    hide Execute, Notifies, ChecksInVain;
    var n := |events| - 1;
    assert forall j :: 0 <= j <= n ==> events[..n][..j] == events[..j];
    if SleepsSince(config, events[..n], waiter, k) && !Notifies(Execute(config, events[..n]), events[n]) {
      forall j | k < j < |events| ensures !Notifies(Execute(config, events[..j]), events[j]) {
        if j < n {
          assert events[..n][..j] == events[..j] && events[..n][j] == events[j];
        }
      }
    }
    if SleepsSince(config, events, waiter, k) {
      forall j | k < j < n ensures !Notifies(Execute(config, events[..n][..j]), events[..n][j]) {
        assert events[..n][..j] == events[..j] && events[..n][j] == events[j];
      }
    }
  }

  /** In every run a task or plan sleeps exactly if it has checked in vain since the last notification: an episode that
      ended, a wave that settled, a pause or a close. Nothing else wakes it, a cancellation no more than anything. */
  lemma {:induction false} AsleepIff(config: StreamConfig, events: seq<Event>, waiter: Waiter)
    requires config.Valid() && GoodEvents(events)
    ensures waiter in Execute(config, events).asleep <==> exists k: nat :: SleepsSince(config, events, waiter, k)
  {
    hide Sound, Step, ChecksInVain, Notifies, GoodEvent, SleepsSince;
    if events == [] {
      NobodySleeps(config, waiter);
    } else {
      var n := |events| - 1;
      ExecuteSound(config, events[..n]);
      StepSleepers(config, Execute(config, events[..n]), events[n], waiter);
      AsleepIff(config, events[..n], waiter);
      JustSlept(config, events, waiter);
      if k: nat :| SleepsSince(config, events[..n], waiter, k) && !Notifies(Execute(config, events[..n]), events[n]) {
        ItsCheck(config, events[..n], waiter, k);
        SleepsOn(config, events, waiter, k);
      }
      if k: nat :| SleepsSince(config, events, waiter, k) && k != n {
        ItsCheck(config, events, waiter, k);
        SleepsOn(config, events, waiter, k);
      }
    }
  }

  lemma ItsCheck(config: StreamConfig, events: seq<Event>, waiter: Waiter, k: nat)
    requires SleepsSince(config, events, waiter, k)
    ensures k < |events|
  {
    hide ChecksInVain, Notifies, Execute;
  }

  lemma NobodySleeps(config: StreamConfig, waiter: Waiter)
    ensures waiter !in Execute(config, []).asleep && forall k: nat :: !SleepsSince(config, [], waiter, k)
  {
    hide ChecksInVain, Notifies;
  }

  lemma JustSlept(config: StreamConfig, events: seq<Event>, waiter: Waiter)
    requires events != []
    ensures var n := |events| - 1;
            SleepsSince(config, events, waiter, n) <==> ChecksInVain(config, Execute(config, events[..n]), events[n], waiter)
  {
    hide ChecksInVain, Notifies, Execute;
  }

  // ----- a stuck stream once everybody has checked

  /** Everybody who waits for room. */
  function Waiters(s: Stream): set<Waiter> {
    (set g: nat | g < |s.tasks| && s.tasks[g].phase.Reserving? :: OfWave(g))
    + set g: nat, k: nat | g < |s.tasks| && s.tasks[g].phase.Collecting? && k < |s.tasks[g].phase.members|
                           && s.tasks[g].phase.members[k] == Room :: OfPlan(g, k)
  }

  function CheckOf(waiter: Waiter): Event {
    match waiter
    case OfWave(g) => Reserved(g)
    case OfPlan(g, k) => Granted(g, k)
  }

  lemma WaitersAsleep(s: Stream)
    ensures Waiters(s) <= s.asleep <==> AllAsleep(s)
  {
    if Waiters(s) <= s.asleep {
      forall h: nat | h < |s.tasks| && s.tasks[h].phase.Reserving? ensures OfWave(h) in s.asleep {
        assert OfWave(h) in Waiters(s);
      }
      forall h: nat, k: nat | At(s.tasks, h, k, Room) ensures OfPlan(h, k) in s.asleep {
        assert OfPlan(h, k) in Waiters(s);
      }
    }
  }

  /** In a stuck stream a check only puts the waiter to sleep. */
  lemma StuckCheck(config: StreamConfig, s: Stream, waiter: Waiter)
    requires Stuck(config, s) && waiter in Waiters(s)
    ensures Step(config, s, CheckOf(waiter)) == s.(asleep := s.asleep + {waiter})
  {
    hide AllDone, HasSome, Reserve, Grant;
    match waiter
    case OfWave(g) =>
      StandstillWave(config, s, g);
      AlreadyIn(s, waiter);
    case OfPlan(g, k) =>
      StandstillPlan(config, s, g, k);
      AlreadyIn(s, waiter);
  }

  lemma AlreadyIn(s: Stream, waiter: Waiter)
    ensures waiter in s.asleep ==> s.(asleep := s.asleep + {waiter}) == s
  {
    if waiter in s.asleep {
      assert s.asleep + {waiter} == s.asleep;
    }
  }

  lemma StaysStuck(config: StreamConfig, s: Stream, waiter: Waiter)
    requires Stuck(config, s)
    ensures Stuck(config, s.(asleep := s.asleep + {waiter}))
  {
    hide AllDone, HasSome, Fits, RangeFits;
    var t := s.(asleep := s.asleep + {waiter});
    forall h | 0 <= h < |t.tasks| ensures Standstill(config, t, h) {
      assert Standstill(config, s, h);
    }
  }

  /** However a stream got stuck, once everybody has checked they all sleep, and it is still stuck. */
  lemma {:induction false} AllCheck(config: StreamConfig, events: seq<Event>) returns (more: seq<Event>)
    requires Sticks(config, events)
    ensures Sticks(config, more) && AllAsleep(Execute(config, more))
    decreases Waiters(Execute(config, events)) - Execute(config, events).asleep
  {
    hide Execute, Stuck, Step, GoodEvent, AllAsleep, Waiters;
    var s := Execute(config, events);
    WaitersAsleep(s);
    if Waiters(s) <= s.asleep {
      more := events;
    } else {
      var waiter :| waiter in Waiters(s) && waiter !in s.asleep;
      StuckCheck(config, s, waiter);
      StaysStuck(config, s, waiter);
      CheckIsGood(waiter);
      var next := Extend(config, events, CheckOf(waiter));
      SameWaiters(s, waiter);
      more := AllCheck(config, next);
    }
  }

  lemma CheckIsGood(waiter: Waiter)
    ensures GoodEvent(CheckOf(waiter)) && GoodEvent(Cancellation)
  {
  }

  lemma SameWaiters(s: Stream, waiter: Waiter)
    requires waiter in Waiters(s) && waiter !in s.asleep
    ensures var t := s.(asleep := s.asleep + {waiter});
            Waiters(t) == Waiters(s) && Waiters(t) - t.asleep < Waiters(s) - s.asleep
  {
    var t := s.(asleep := s.asleep + {waiter});
    assert waiter in Waiters(s) - s.asleep && waiter !in Waiters(t) - t.asleep;
  }

  ghost predicate SticksForGood(config: StreamConfig, events: seq<Event>) {
    Sticks(config, events) && Sticks(config, events + [Cancellation])
  }

  /** Cancelling is no way out: wherever some run gets stuck, some run gets stuck so that it is stuck after a
      cancellation too. */
  lemma SomeRunSticksForGoodIff(config: StreamConfig)
    requires config.Valid()
    ensures (exists events :: SticksForGood(config, events)) <==> CanStick(config)
  {
    hide Execute, Stuck, CanStick, Step, Sticks;
    SomeRunSticksIff(config);
    if events :| Sticks(config, events) {
      var more := AllCheck(config, events);
      CancelAsleep(config, more);
      assert SticksForGood(config, more);
    }
  }

  lemma CancelAsleep(config: StreamConfig, events: seq<Event>)
    requires Sticks(config, events) && AllAsleep(Execute(config, events))
    ensures Sticks(config, events + [Cancellation])
  {
    hide Execute, Stuck, Step, GoodEvent, AllAsleep;
    CheckIsGood(OfWave(0));
    CancellationWakesNobody(config, Execute(config, events));
    ExecuteNext(config, events, Cancellation);
  }
}
