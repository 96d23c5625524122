/** Which streams can get stuck: those whose backends are mixed, some with group hooks and some without, and that have
    the slots, the credit and a limited executor for the two kinds of groups to wait for each other. */
module StreamDeadlock {
  import opened Basics
  import opened Wrappers
  import opened Resources
  import opened CoordinatorSpec
  import opened StreamSpec
  import opened StreamCharges
  import opened StreamTheorems
  import opened StreamGroups
  import opened StreamResults
  import opened StreamWaiters
  import opened StreamProgress

  predicate SomeHooked(config: StreamConfig) {
    exists b :: b in config.limits.backends && config.limits.backends[b] in config.hooked
  }

  predicate SomeUnhooked(config: StreamConfig) {
    exists b :: b in config.limits.backends && config.limits.backends[b] !in config.hooked
  }

  ghost predicate CanStick(config: StreamConfig) {
    && config.limits.policy == NativeGroups && SomeHooked(config) && SomeUnhooked(config)
    && 2 <= config.limits.maxGroups && config.limits.maxWorkers < config.maxPending && Scarce(config)
  }

  // ----- where groups come from

  /** A group runs in waves as its backend says. */
  ghost predicate Origins(config: StreamConfig, plans: seq<Plan>, tasks: seq<Task>) {
    forall g :: 0 <= g < |tasks| ==>
      && tasks[g].start < |plans| && plans[tasks[g].start].group.benchmark in config.limits.backends
      && tasks[g].waves == config.InWaves(plans[tasks[g].start].group.benchmark)
  }

  lemma SubmitOrigins(config: StreamConfig, s: Stream, plans: seq<Plan>, sequence: int)
    requires Origins(config, s.plans, s.tasks)
    ensures var t := Submit(config, s, plans, sequence); Origins(config, t.plans, t.tasks)
  {
    hide Refused, Claims, StageTaken, StreamConfig.InWaves;
  }

  lemma SameOrigins(config: StreamConfig, s: Stream, t: Stream)
    requires Origins(config, s.plans, s.tasks) && SameGroups(s, t)
    ensures Origins(config, t.plans, t.tasks)
  {
  }

  lemma StepOrigins(config: StreamConfig, s: Stream, event: Event)
    requires Origins(config, s.plans, s.tasks)
    ensures var t := Step(config, s, event); Origins(config, t.plans, t.tasks)
  {
    hide Origins, SameGroups, Submit;
    if event.Submission? {
      SubmitOrigins(config, s, event.plans, event.sequence);
    } else {
      StepSameGroups(config, s, event);
      SameOrigins(config, s, Step(config, s, event));
    }
  }

  lemma {:induction false} ExecuteOrigins(config: StreamConfig, events: seq<Event>)
    ensures var s := Execute(config, events); Origins(config, s.plans, s.tasks)
  {
    hide Step;
    if events != [] {
      ExecuteOrigins(config, events[..|events| - 1]);
      StepOrigins(config, Execute(config, events[..|events| - 1]), events[|events| - 1]);
    }
  }

  // ----- only such streams get stuck

  ghost predicate Unreturned(tasks: seq<Task>, i: nat) {
    exists g :: 0 <= g < |tasks| && tasks[g].phase != Returned && tasks[g].start <= i < tasks[g].stop
  }

  /** Plans of groups not handed back count as input credit. */
  lemma {:induction false} OutstandingCounts(tasks: seq<Task>, plans: set<nat>)
    requires forall i :: i in plans ==> Unreturned(tasks, i)
    ensures |plans| <= Outstanding(tasks)
  {
    if tasks == [] {
      assert plans == {};
    } else {
      var front, last := tasks[..|tasks| - 1], tasks[|tasks| - 1];
      var inside := if last.phase == Returned || last.stop < last.start then {} else plans * Range(last.start, last.stop);
      forall i | i in plans - inside ensures Unreturned(front, i) {
        assert Unreturned(tasks, i);
        var g :| 0 <= g < |tasks| && tasks[g].phase != Returned && tasks[g].start <= i < tasks[g].stop;
        assert front[g] == tasks[g];
      }
      OutstandingCounts(front, plans - inside);
      if inside != {} {
        SubsetSize(inside, Range(last.start, last.stop));
        RangeSize(last.start, last.stop);
      }
      assert |plans| == |plans - inside| + |inside|;
    }
  }

  lemma BusyUnreturned(config: StreamConfig, s: Stream, i: nat)
    requires Sound(config, s) && i in s.busy
    ensures Unreturned(s.tasks, i)
  {
    hide Sound, Books, Bounds, Shape, WholeWaves, Marks, TaskOk;
    BusyIsPlan(config, s, i);
    SlotOwners(config, s);
    var h := OwnerOf(s.tasks, i);
    SoundTask(config, s, h);
    BusyHasWorker(s, s.tasks[h], i);
  }

  lemma WaitingIsIdle(config: StreamConfig, s: Stream, h: nat, k: nat)
    requires Sound(config, s) && At(s.tasks, h, k, Waiting)
    ensures PlanOf(s.tasks[h], k) !in s.busy && Unreturned(s.tasks, PlanOf(s.tasks[h], k))
  {
    hide Sound, Books, Bounds, Shape, WholeWaves, Marks, TaskOk;
    SoundTask(config, s, h);
    MemberInPlans(config, s, h, k, Waiting);
    MarkedAt(s.tasks[h], k, s);
  }

  /** All workers' plans and one more are input that has not been handed back. */
  lemma StuckNeedsCredit(config: StreamConfig, s: Stream, h: nat, k: nat)
    requires Sound(config, s) && |s.busy| == config.limits.maxWorkers && At(s.tasks, h, k, Waiting)
    ensures config.limits.maxWorkers < config.maxPending
  {
    hide Sound, Unreturned;
    var i := PlanOf(s.tasks[h], k);
    WaitingIsIdle(config, s, h, k);
    forall j | j in s.busy + {i} ensures Unreturned(s.tasks, j) {
      if j != i {
        BusyUnreturned(config, s, j);
      }
    }
    OutstandingCounts(s.tasks, s.busy + {i});
    CreditBounds(config, s);
  }

  lemma CreditBounds(config: StreamConfig, s: Stream)
    requires Sound(config, s)
    ensures Outstanding(s.tasks) <= config.maxPending && |s.slots| <= config.limits.maxGroups
  {
    hide Books, Owners, TaskOk;
  }

  lemma TwoSlots(config: StreamConfig, s: Stream, g: nat, h: nat)
    requires Sound(config, s) && g < |s.tasks| && h < |s.tasks| && g != h
    requires s.tasks[g].phase.Collecting? && s.tasks[h].phase.Collecting?
    ensures 2 <= config.limits.maxGroups
  {
    hide Sound;
    BooksOf(config, s);
    CreditBounds(config, s);
    SubsetSize({g, h}, s.slots);
  }

  lemma WaitingAt(s: Stream) returns (h: nat, k: nat)
    requires exists h :: 0 <= h < |s.tasks| && s.tasks[h].waves && HasSome(s.tasks[h], Waiting)
    ensures At(s.tasks, h, k, Waiting) && s.tasks[h].waves
  {
    hide HasMember;
    var g :| 0 <= g < |s.tasks| && s.tasks[g].waves && HasSome(s.tasks[g], Waiting);
    h := g;
    k :| HasMember(s.tasks[h], k, Waiting);
    MemberIsAt(s.tasks, h, k, Waiting);
  }

  lemma MemberIsAt(tasks: seq<Task>, h: nat, k: nat, member: Member)
    requires h < |tasks| && HasMember(tasks[h], k, member)
    ensures At(tasks, h, k, member)
  {
  }

  lemma MixedBackends(config: StreamConfig, s: Stream, g: nat, h: nat)
    requires Origins(config, s.plans, s.tasks) && g < |s.tasks| && h < |s.tasks| && s.tasks[g].waves && !s.tasks[h].waves
    ensures config.limits.policy == NativeGroups && SomeHooked(config) && SomeUnhooked(config)
  {
  }

  lemma RoomStandstill(config: StreamConfig, s: Stream, h: nat, k: nat)
    requires Stuck(config, s) && At(s.tasks, h, k, Room)
    ensures PlanInVain(config, s, h, k)
  {
    hide HasSome, AllDone;
    assert Standstill(config, s, h);
  }

  lemma StuckCanStick(config: StreamConfig, s: Stream)
    requires Sound(config, s) && Drowsy(config, s) && Origins(config, s.plans, s.tasks) && Stuck(config, s)
    ensures CanStick(config)
  {
    hide Sound, Drowsy, Origins, HasSome, Standstill, PlanInVain, Scarce, SomeHooked, SomeUnhooked;
    var g, k := WaitingAt(s);
    var h, l := SomeRoom(config, s);
    StuckNeedsCredit(config, s, g, k);
    TwoSlots(config, s, g, h);
    MixedBackends(config, s, g, h);
    RoomStandstill(config, s, h, l);
    PlanInVainNeedsCharge(config, s, h, l);
  }

  // ----- and every such stream can: one plan in a wave against as many plans as there are workers

  /** A plan that wants all there is. */
  function Whole(config: StreamConfig, e: Executor): Requirement
    requires e in config.limits.capacities
  {
    config.limits.capacities[e].(executor := e, episodeScoped := true)
  }

  function InWave(config: StreamConfig, b: Name, e: Executor): Plan
    requires e in config.limits.capacities
  {
    Plan(Name(""), Name("run"), Group(b, Name("wave"), 0), Whole(config, e))
  }

  function Single(config: StreamConfig, c: Name, e: Executor, k: nat): Plan
    requires e in config.limits.capacities
  {
    Plan(Name(seq(k + 1, _ => 'x')), Name("run"), Group(c, Name("singles"), 0), Whole(config, e))
  }

  function Singles(config: StreamConfig, c: Name, e: Executor): (plans: seq<Plan>)
    requires e in config.limits.capacities
    ensures |plans| == config.limits.maxWorkers
    ensures forall k :: 0 <= k < |plans| ==> plans[k] == Single(config, c, e, k)
  {
    seq(config.limits.maxWorkers, k requires 0 <= k => Single(config, c, e, k))
  }

  /** The configuration, a hooked and an unhooked benchmark, and the limited account. */
  ghost predicate Scene(config: StreamConfig, b: Name, c: Name, a: Account) {
    && config.Valid() && config.limits.policy == NativeGroups && a.executor in config.limits.capacities && Limited(config, a)
    && b in config.limits.backends && config.limits.backends[b] in config.hooked
    && c in config.limits.backends && config.limits.backends[c] !in config.hooked
    && 2 <= config.limits.maxGroups && config.limits.maxWorkers < config.maxPending
  }

  function AllPlans(config: StreamConfig, b: Name, c: Name, e: Executor): (plans: seq<Plan>)
    requires e in config.limits.capacities
    ensures |plans| == config.limits.maxWorkers + 1
    ensures forall i :: 0 <= i < |plans| ==> plans[i].requirement == Whole(config, e)
  {
    [InWave(config, b, e)] + Singles(config, c, e)
  }

  function Reached(
    config: StreamConfig, plans: seq<Plan>, first: Phase, second: Phase, reserved: Ledger,
    slots: set<nat>, busy: set<nat>, held: set<nat>): Stream
  {
    Stream(plans, [Task(0, 1, true, 0, first, [], []), Task(1, 1 + config.limits.maxWorkers, false, 0, second, [], [])],
           reserved, map[], 1, Some(Name("run")), 1 + config.limits.maxWorkers, false, false, false,
           slots, busy, held, {}, {}, map[])
  }

  /** The first n singles have a worker. */
  function Members(config: StreamConfig, n: nat): (members: seq<Member>)
    ensures |members| == config.limits.maxWorkers
    ensures forall k :: 0 <= k < |members| ==> members[k] == if k < n then Room else Waiting
  {
    seq(config.limits.maxWorkers, k => if k < n then Room else Waiting)
  }

  lemma ExecuteNext(config: StreamConfig, events: seq<Event>, event: Event)
    ensures Execute(config, events + [event]) == Step(config, Execute(config, events), event)
  {
    assert (events + [event])[..|events|] == events;
  }

  lemma WholeFits(config: StreamConfig, a: Account)
    requires config.Valid() && a.executor in config.limits.capacities && Limited(config, a)
    ensures Fits(map[], config.limits.capacities, Whole(config, a.executor))
    ensures !Fits(Credit(map[], Whole(config, a.executor)), config.limits.capacities, Whole(config, a.executor))
  {
    var whole := Whole(config, a.executor);
    assert Balance(Credit(map[], whole), a) == Cost(whole, a);
    assert !Resources.Room(Credit(map[], whole), config.limits.capacities, whole, a.quantity);
  }

  lemma {:induction false} NothingClaimed(owners: map<Executor, Name>, backend: Name, plans: seq<Plan>, n: nat)
    requires n <= |plans| && forall i :: 0 <= i < |plans| ==> plans[i].requirement.episodeScoped
    ensures Claims(owners, backend, plans, n) == owners
  {
    if n > 0 {
      NothingClaimed(owners, backend, plans, n - 1);
    }
  }

  /** A group of plans that charge their episodes and fit alone is accepted. */
  lemma Accepted(config: StreamConfig, s: Stream, plans: seq<Plan>, sequence: int)
    requires CheckGroup(config, s, plans, sequence) == None
    requires forall i :: 0 <= i < |plans| ==>
               plans[i].requirement.episodeScoped && Fits(map[], config.limits.capacities, plans[i].requirement)
    ensures CheckSubmission(config, s, plans, sequence) == None && OwnersAfter(config, s, plans, sequence) == s.owners
  {
    hide Fits, CheckGroup, Claims;
    GroupChecked(config, s, plans, sequence);
    NothingClaimed(s.owners, config.limits.backends[plans[0].group.benchmark], plans, Refused(config, s, plans));
  }

  lemma GroupChecked(config: StreamConfig, s: Stream, plans: seq<Plan>, sequence: int)
    requires CheckGroup(config, s, plans, sequence) == None
    ensures plans != [] && plans[0].group.benchmark in config.limits.backends
  {
  }

  lemma SinglesDiffer(config: StreamConfig, c: Name, e: Executor, i: nat, j: nat)
    requires e in config.limits.capacities && i < j < config.limits.maxWorkers
    ensures Singles(config, c, e)[i].identity != Singles(config, c, e)[j].identity
  {
    assert |Singles(config, c, e)[i].identity.text| == i + 1 && |Singles(config, c, e)[j].identity.text| == j + 1;
  }

  lemma FirstSubmitted(config: StreamConfig, b: Name, c: Name, a: Account)
    requires Scene(config, b, c, a)
    ensures Step(config, Opened(), Submission([InWave(config, b, a.executor)], 0)) ==
            Stream([InWave(config, b, a.executor)], [Task(0, 1, true, 0, Queued, [], [])], map[], map[], 0, Some(Name("run")), 1,
                   false, false, false, {}, {}, {}, {}, {}, map[])
  {
    hide Fits, CheckSubmission, OwnersAfter, Limited;
    WholeFits(config, a);
    Accepted(config, Opened(), [InWave(config, b, a.executor)], 0);
  }

  lemma SecondSubmitted(config: StreamConfig, b: Name, c: Name, a: Account)
    requires Scene(config, b, c, a)
    ensures var e := a.executor;
            var s := Stream([InWave(config, b, e)], [Task(0, 1, true, 0, Queued, [], [])], map[], map[], 0, Some(Name("run")), 1,
                            false, false, false, {}, {}, {}, {}, {}, map[]);
            Step(config, s, Submission(Singles(config, c, e), 1)) ==
              Reached(config, AllPlans(config, b, c, e), Queued, Queued, map[], {}, {}, {})
  {
    hide Fits, CheckSubmission, OwnersAfter, Limited, Singles;
    var e := a.executor;
    var s := Stream([InWave(config, b, e)], [Task(0, 1, true, 0, Queued, [], [])], map[], map[], 0, Some(Name("run")), 1,
                    false, false, false, {}, {}, {}, {}, {}, map[]);
    forall i, j | 0 <= i < j < config.limits.maxWorkers
      ensures Singles(config, c, e)[i].identity != Singles(config, c, e)[j].identity
    {
      SinglesDiffer(config, c, e, i, j);
    }
    WholeFits(config, a);
    Accepted(config, s, Singles(config, c, e), 1);
  }

  lemma WaveEnters(config: StreamConfig, plans: seq<Plan>)
    requires config.Valid()
    ensures Step(config, Reached(config, plans, Queued, Queued, map[], {}, {}, {}), Entering(0)) ==
              Reached(config, plans, Choosing, Queued, map[], {0}, {}, {})
  {
    assert {} + {0} == {0};
  }

  /** The first group's wave is its one plan. */
  lemma WaveChosen(config: StreamConfig, plans: seq<Plan>, e: Executor)
    requires config.Valid() && e in config.limits.capacities && |plans| == config.limits.maxWorkers + 1
    requires forall i :: 0 <= i < |plans| ==> plans[i].requirement == Whole(config, e)
    requires Fits(map[], config.limits.capacities, Whole(config, e))
    ensures Step(config, Reached(config, plans, Choosing, Queued, map[], {0}, {}, {}), LoopHead(0)) ==
              Reached(config, plans, Reserving(1), Queued, map[], {0}, {}, {})
    ensures RangeFits(map[], config.limits.capacities, plans, 0, 1)
  {
    hide WaveSize, Fits, Credit, RangeFits;
    WaveIsNonempty(config, plans, 0, 1);
  }

  lemma WaveCharged(config: StreamConfig, plans: seq<Plan>, e: Executor)
    requires config.Valid() && e in config.limits.capacities && |plans| == config.limits.maxWorkers + 1
    requires forall i :: 0 <= i < |plans| ==> plans[i].requirement == Whole(config, e)
    requires RangeFits(map[], config.limits.capacities, plans, 0, 1)
    ensures Step(config, Reached(config, plans, Reserving(1), Queued, map[], {0}, {}, {}), Reserved(0)) ==
              Reached(config, plans, Opening(1), Queued, Credit(map[], Whole(config, e)), {0}, {}, {0})
  {
    hide Credit, RangeFits, Whole;
    assert CreditRange(map[], plans, 0, 0) == map[];
    assert CreditRange(map[], plans, 0, 1) == Credit(map[], Whole(config, e));
    assert Range(0, 1) == {0};
  }

  lemma SinglesEnter(config: StreamConfig, plans: seq<Plan>, reserved: Ledger)
    requires 2 <= config.limits.maxGroups
    ensures Step(config, Reached(config, plans, Opening(1), Queued, reserved, {0}, {}, {0}), Entering(1)) ==
              Reached(config, plans, Opening(1), Collecting(Members(config, 0)), reserved, {0, 1}, {}, {0})
  {
    assert AllWaiting(config.limits.maxWorkers) == Members(config, 0);
    assert {0} + {1} == {0, 1};
  }

  /** One worker after the other goes to the singles. */
  lemma WorkerTaken(config: StreamConfig, plans: seq<Plan>, reserved: Ledger, n: nat)
    requires n < config.limits.maxWorkers
    ensures Step(config, Reached(config, plans, Opening(1), Collecting(Members(config, n)), reserved, {0, 1}, Range(1, 1 + n), {0}),
                 Started(1, n)) ==
              Reached(config, plans, Opening(1), Collecting(Members(config, n + 1)), reserved, {0, 1}, Range(1, 2 + n), {0})
  {
    hide Members, Start, Range;
    var s := Reached(config, plans, Opening(1), Collecting(Members(config, n)), reserved, {0, 1}, Range(1, 1 + n), {0});
    RangeSize(1, 1 + n);
    NextMember(config, n);
    StartIs(config, s, 1, n);
    NextTask(s, 1, n);
  }

  lemma NextMember(config: StreamConfig, n: nat)
    requires n < config.limits.maxWorkers
    ensures Members(config, n)[n := Room] == Members(config, n + 1) && Range(1, 1 + n) + {1 + n} == Range(1, 2 + n)
  {
    hide Members, Range;
  }

  lemma NextTask(s: Stream, g: nat, n: nat)
    requires At(s.tasks, g, n, Waiting) && !s.tasks[g].waves && s.tasks[g].start == 1 && s.tasks[g].offset == 0
    ensures StartedMember(s, g) == Room && StartedBusy(s, g, PlanOf(s.tasks[g], n)) == s.busy + {1 + n}
  {
  }

  lemma HookReturns(config: StreamConfig, plans: seq<Plan>, members: seq<Member>, reserved: Ledger, busy: set<nat>)
    ensures Step(config, Reached(config, plans, Opening(1), Collecting(members), reserved, {0, 1}, busy, {0}), HookReturned(0, true)) ==
              Reached(config, plans, Collecting([Waiting]), Collecting(members), reserved, {0, 1}, busy, {0})
  {
    assert AllWaiting(1) == [Waiting];
  }

  /** The last state of the run: all workers are taken, and nobody finds room. */
  lemma NowStuck(config: StreamConfig, plans: seq<Plan>, e: Executor)
    requires config.Valid() && e in config.limits.capacities && |plans| == config.limits.maxWorkers + 1
    requires forall i :: 0 <= i < |plans| ==> plans[i].requirement == Whole(config, e)
    requires !Fits(Credit(map[], Whole(config, e)), config.limits.capacities, Whole(config, e))
    ensures var n := config.limits.maxWorkers;
            Stuck(config, Reached(config, plans, Collecting([Waiting]), Collecting(Members(config, n)),
                                  Credit(map[], Whole(config, e)), {0, 1}, Range(1, 1 + n), {0}))
  {
    hide Fits, Credit, Members, Whole;
    var n := config.limits.maxWorkers;
    var members := Members(config, n);
    var s := Reached(config, plans, Collecting([Waiting]), Collecting(members), Credit(map[], Whole(config, e)),
                     {0, 1}, Range(1, 1 + n), {0});
    RangeSize(1, 1 + n);
    assert HasMember(s.tasks[0], 0, Waiting);
    assert !AllDone([Waiting]) by {
      assert ![Waiting][0].Done?;
    }
    assert !AllDone(members) by {
      assert !members[0].Done?;
    }
    assert Standstill(config, s, 0);
    assert Standstill(config, s, 1);
  }

  lemma StuckRun(config: StreamConfig, b: Name, c: Name, a: Account) returns (events: seq<Event>)
    requires Scene(config, b, c, a)
    ensures GoodEvents(events) && Stuck(config, Execute(config, events))
  {
    hide Execute, Step, Stuck, Fits, Credit, Members, Singles, Limited, Whole, InWave, Range;
    var e, n := a.executor, config.limits.maxWorkers;
    var plans, whole := AllPlans(config, b, c, e), Credit(map[], Whole(config, e));
    WholeFits(config, a);
    PlansAreGood(config, b, c, e);
    events := [];
    OpenedIs(config);
    FirstSubmitted(config, b, c, a);
    events := Extend(config, events, Submission([InWave(config, b, e)], 0));
    SecondSubmitted(config, b, c, a);
    events := Extend(config, events, Submission(Singles(config, c, e), 1));
    WaveEnters(config, plans);
    WaveChosen(config, plans, e);
    WaveCharged(config, plans, e);
    events := Extend(config, events, Entering(0));
    events := Extend(config, events, LoopHead(0));
    events := Extend(config, events, Reserved(0));
    SinglesEnter(config, plans, whole);
    events := Extend(config, events, Entering(1));
    NoRange();
    for k := 0 to n
      invariant GoodEvents(events)
      invariant Execute(config, events) ==
                  Reached(config, plans, Opening(1), Collecting(Members(config, k)), whole, {0, 1}, Range(1, 1 + k), {0})
    {
      WorkerTaken(config, plans, whole, k);
      events := Extend(config, events, Started(1, k));
    }
    HookReturns(config, plans, Members(config, n), whole, Range(1, 1 + n));
    events := Extend(config, events, HookReturned(0, true));
    NowStuck(config, plans, e);
  }

  lemma NoRange()
    ensures Range(1, 1) == {}
  {
  }

  lemma OpenedIs(config: StreamConfig)
    ensures Execute(config, []) == Opened() && GoodEvents([])
  {
  }

  lemma PlansAreGood(config: StreamConfig, b: Name, c: Name, e: Executor)
    requires config.Valid() && e in config.limits.capacities
    ensures GoodEvent(Submission([InWave(config, b, e)], 0)) && GoodEvent(Submission(Singles(config, c, e), 1))
  {
  }

  lemma Extend(config: StreamConfig, events: seq<Event>, event: Event) returns (more: seq<Event>)
    requires GoodEvents(events) && GoodEvent(event)
    ensures GoodEvents(more) && Execute(config, more) == Step(config, Execute(config, events), event)
  {
    hide GoodEvent, Step, Execute;
    more := events + [event];
    ExecuteNext(config, events, event);
  }

  lemma SceneOf(config: StreamConfig) returns (b: Name, c: Name, a: Account)
    requires config.Valid() && CanStick(config)
    ensures Scene(config, b, c, a)
  {
    b :| b in config.limits.backends && config.limits.backends[b] in config.hooked;
    c :| c in config.limits.backends && config.limits.backends[c] !in config.hooked;
    a :| a.executor in config.limits.capacities && Limited(config, a);
  }

  ghost predicate Sticks(config: StreamConfig, events: seq<Event>) {
    GoodEvents(events) && Stuck(config, Execute(config, events))
  }

  /** Some run gets stuck exactly if backends with and without group hooks are registered under native groups, two
      groups may run at once, more input is allowed than there are workers, and some executor is limited. */
  lemma SomeRunSticksIff(config: StreamConfig)
    requires config.Valid()
    ensures (exists events :: Sticks(config, events)) <==> CanStick(config)
  {
    hide Execute, Stuck, Sound, Drowsy, Origins, Scene, Scarce;
    if CanStick(config) {
      var b, c, a := SceneOf(config);
      var events := StuckRun(config, b, c, a);
      assert Sticks(config, events);
    }
    if events :| Sticks(config, events) {
      ExecuteSound(config, events);
      ExecuteDrowsy(config, events);
      ExecuteOrigins(config, events);
      StuckCanStick(config, Execute(config, events));
    }
  }

  const EXECUTOR := Executor("e")
  const ONE := Requirement(EXECUTOR, 1.0, 0.0, 0.0, 0.0, true)

  /** One worker, two group slots, and an executor that has room for one plan; only one backend has group hooks. */
  const CONFIG := StreamConfig(
    Config(1, 2, NativeGroups, map[EXECUTOR := ONE], map[Name("waves") := Name("waves"), Name("singles") := Name("singles")]),
    2, {Name("waves")})

  /** The smallest such stream: a run of it in which from some state on no task can move. */
  lemma StreamGetsStuck() returns (events: seq<Event>)
    ensures CONFIG.Valid() && CanStick(CONFIG) && GoodEvents(events)
    ensures forall event :: !Moves(CONFIG, Execute(CONFIG, events), event)
  {
    hide Execute, Stuck, Moves;
    var a := Account(EXECUTOR, Cpu);
    assert Limited(CONFIG, a) && CONFIG.limits.backends[Name("waves")] in CONFIG.hooked;
    assert Name("singles") in CONFIG.limits.backends && CONFIG.limits.backends[Name("singles")] !in CONFIG.hooked;
    events := StuckRun(CONFIG, Name("waves"), Name("singles"), a);
    forall event ensures !Moves(CONFIG, Execute(CONFIG, events), event) {
      StuckStandsStill(CONFIG, Execute(CONFIG, events), event);
    }
  }
}
