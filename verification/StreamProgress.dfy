/** When a stream can get stuck. Groups that wait in waves hold charges while they wait for workers; groups without
    waves hold workers while they wait for room. Only the two together can wait for each other for ever. */
module StreamProgress {
  import opened Resources
  import opened CoordinatorSpec
  import opened StreamSpec
  import opened StreamTheorems
  import opened StreamResults
  import opened StreamWaiters

  /** Events of the tasks themselves: nobody has to submit, cancel, pause, resume or close anything. Hooks return and
      episodes end by themselves. */
  predicate OwnStep(event: Event) {
    match event
    case Submission(_, _) => false
    case Cancellation => false
    case Pausing => false
    case Resuming => false
    case Closing => false
    case _ => true
  }

  /** The event takes some task further. A check in vain does not. */
  ghost predicate Moves(config: StreamConfig, s: Stream, event: Event) {
    OwnStep(event) && Step(config, s, event).tasks != s.tasks
  }

  predicate HasMember(task: Task, k: nat, member: Member) {
    task.phase.Collecting? && k < |task.phase.members| && task.phase.members[k] == member
  }

  ghost predicate HasSome(task: Task, member: Member) {
    exists k: nat :: HasMember(task, k, member)
  }

  /** The task's next step waits for nobody else. */
  predicate AtOnce(task: Task) {
    || task.phase.Choosing? || task.phase.Opening? || task.phase.Settling? || task.phase.Complete?
    || (task.phase.Collecting? && AllDone(task.phase.members))
  }

  /** The wave of a task waits for room: it sleeps, or there is none. A cancelled stream frees those awake. */
  predicate WaveInVain(config: StreamConfig, s: Stream, h: nat)
    requires h < |s.tasks| && s.tasks[h].phase.Reserving?
  {
    var low, high := s.tasks[h].start + s.tasks[h].offset, s.tasks[h].start + s.tasks[h].offset + s.tasks[h].phase.size;
    OfWave(h) in s.asleep ||
    (!s.cancelled && high <= |s.plans| && !RangeFits(s.reserved, config.limits.capacities, s.plans, low, high))
  }

  /** So does a plan that holds a worker. */
  predicate PlanInVain(config: StreamConfig, s: Stream, h: nat, k: nat)
    requires At(s.tasks, h, k, Room)
  {
    var i := PlanOf(s.tasks[h], k);
    OfPlan(h, k) in s.asleep ||
    (!s.cancelled && i < |s.plans| && !Fits(s.reserved, config.limits.capacities, s.plans[i].requirement))
  }

  /** The task waits for others. */
  ghost predicate Standstill(config: StreamConfig, s: Stream, h: nat)
    requires h < |s.tasks|
  {
    match s.tasks[h].phase
    case Queued => |s.slots| >= config.limits.maxGroups
    case Reserving(_) => WaveInVain(config, s, h)
    case Collecting(members) =>
      && !AllDone(members) && !HasSome(s.tasks[h], Working)
      && forall k: nat :: At(s.tasks, h, k, Room) ==> PlanInVain(config, s, h, k)
    case Returned => true
    case _ => false
  }

  /** The deadlock: a charged wave waits for a worker; every worker is held by a plan that waits for room; and
      everybody else waits too. */
  ghost predicate Stuck(config: StreamConfig, s: Stream) {
    && |s.busy| == config.limits.maxWorkers
    && (exists h :: 0 <= h < |s.tasks| && s.tasks[h].waves && HasSome(s.tasks[h], Waiting))
    && forall h :: 0 <= h < |s.tasks| ==> Standstill(config, s, h)
  }

  // ----- steps that are always possible

  lemma NotifiedTasks(s: Stream, t: Stream)
    ensures Notified(s, t).tasks == t.tasks
  {
  }

  lemma AtOnceMoves(config: StreamConfig, s: Stream, h: nat) returns (event: Event)
    requires Sound(config, s) && h < |s.tasks| && AtOnce(s.tasks[h])
    ensures Moves(config, s, event)
  {
    hide Sound, Bounds, Shape, Marks, WholeWaves, HistoryBelow, Books, Choose, Admitted, Settle, HandBack, Gathered, Notified;
    var task := s.tasks[h];
    SoundTask(config, s, h);
    ResultsSoFar(config, s.plans, s.cancelled, task);
    match task.phase
    case Choosing =>
      event := LoopHead(h);
      ChooseMoves(config, s, h);
    case Opening(_) =>
      event := HookReturned(h, true);
      AdmittedMoves(s, h);
    case Settling(_, _) =>
      event := Settled(h);
      SettleMoves(s, h);
      NotifiedTasks(s, Settle(s, h));
    case Complete =>
      event := Handed(h);
      CompleteIsPending(config, s, h);
      HandBackMoves(s, h);
    case Collecting(_) =>
      event := BatchEnded(h, false);
      GatheredMoves(s, h);
  }

  lemma AdmittedMoves(s: Stream, h: nat)
    requires h < |s.tasks| && s.tasks[h].phase.Opening?
    ensures Admitted(s, h, true).tasks != s.tasks
  {
    assert Admitted(s, h, true).tasks[h].phase.Collecting?;
  }

  lemma HandBackMoves(s: Stream, h: nat)
    requires h < |s.tasks| && s.tasks[h].phase == Complete && s.pending + s.tasks[h].start >= s.tasks[h].stop
    ensures HandBack(s, h).tasks != s.tasks
  {
    assert HandBack(s, h).tasks[h].phase == Returned;
  }

  lemma ChooseMoves(config: StreamConfig, s: Stream, h: nat)
    requires h < |s.tasks| && s.tasks[h].phase == Choosing
    requires s.tasks[h].start + s.tasks[h].offset <= s.tasks[h].stop <= |s.plans|
    ensures Choose(config, s, h).tasks != s.tasks
  {
    hide WaveSize;
    assert Choose(config, s, h).tasks[h].phase != Choosing;
  }

  lemma SettleMoves(s: Stream, h: nat)
    requires h < |s.tasks| && s.tasks[h].phase.Settling?
    requires s.tasks[h].start + s.tasks[h].offset + |s.tasks[h].phase.observed| <= |s.plans|
    ensures Settle(s, h).tasks != s.tasks
  {
    hide ProvenSafe, Identified, Doubted, CreditRange, DebitRange, Range;
    assert Settle(s, h).tasks[h].phase == Choosing;
  }

  lemma GatheredMoves(s: Stream, h: nat)
    requires h < |s.tasks| && s.tasks[h].phase.Collecting? && AllDone(s.tasks[h].phase.members)
    requires s.tasks[h].start + s.tasks[h].offset + |s.tasks[h].phase.members| <= |s.plans|
    ensures Gathered(s, h, false).tasks != s.tasks
  {
    hide AllDone, Identified, Outcomes;
    assert !Gathered(s, h, false).tasks[h].phase.Collecting?;
  }

  /** A complete task's plans still count as input not yet returned. */
  lemma CompleteIsPending(config: StreamConfig, s: Stream, h: nat)
    requires Bounds(config, s) && h < |s.tasks| && s.tasks[h].phase == Complete
    requires s.tasks[h].start <= s.tasks[h].stop
    ensures s.pending + s.tasks[h].start >= s.tasks[h].stop
  {
    OutstandingReturned(s.tasks, h, s.tasks[h].(phase := Returned));
  }

  lemma WorkingMoves(config: StreamConfig, s: Stream, h: nat, k: nat) returns (event: Event)
    requires Sound(config, s) && h < |s.tasks| && HasMember(s.tasks[h], k, Working)
    ensures Moves(config, s, event)
  {
    hide Sound, Bounds, Shape, Marks, WholeWaves, HistoryBelow, Books, Finish, Notified;
    SoundTask(config, s, h);
    ResultsSoFar(config, s.plans, s.cancelled, s.tasks[h]);
    event := Finished(h, k, UNRESOLVED);
    FinishMoves(s, h, k, UNRESOLVED);
    NotifiedTasks(s, Finish(s, h, k, UNRESOLVED));
  }

  lemma FinishMoves(s: Stream, h: nat, k: nat, outcome: Outcome)
    requires At(s.tasks, h, k, Working) && PlanOf(s.tasks[h], k) < |s.plans|
    ensures Finish(s, h, k, outcome).tasks != s.tasks
  {
    hide Credit, Debit, Outcome.Safe;
    assert Finish(s, h, k, outcome).tasks[h].phase.members[k] == Done(outcome);
  }

  lemma WaitingMoves(config: StreamConfig, s: Stream, h: nat, k: nat) returns (event: Event)
    requires h < |s.tasks| && HasMember(s.tasks[h], k, Waiting) && |s.busy| < config.limits.maxWorkers
    ensures Moves(config, s, event)
  {
    hide Start;
    event := Started(h, k);
    StartMoves(config, s, h, k);
  }

  lemma StartMoves(config: StreamConfig, s: Stream, h: nat, k: nat)
    requires At(s.tasks, h, k, Waiting) && |s.busy| < config.limits.maxWorkers
    ensures Start(config, s, h, k).tasks != s.tasks
  {
    hide PlanOf, PutMember;
    PutMemberMoves(s, h, k, Room);
    PutMemberMoves(s, h, k, Working);
    PutMemberMoves(s, h, k, Done(NOT_ADMITTED));
  }

  lemma PutMemberMoves(s: Stream, h: nat, k: nat, member: Member)
    requires h < |s.tasks| && s.tasks[h].phase.Collecting? && k < |s.tasks[h].phase.members|
    ensures s.tasks[h].phase.members[k] != member ==> PutMember(s, h, k, member).tasks != s.tasks
  {
    assert PutMember(s, h, k, member).tasks[h].phase.members[k] == member;
  }

  lemma QueuedMoves(config: StreamConfig, s: Stream, h: nat) returns (event: Event)
    requires Sound(config, s) && h < |s.tasks| && s.tasks[h].phase == Queued && |s.slots| < config.limits.maxGroups
    ensures Moves(config, s, event)
  {
    hide Bounds, Marks, WholeWaves, HistoryBelow, Books;
    event := Entering(h);
    assert Step(config, s, event).tasks[h].phase != Queued;
  }

  lemma WaveMovesUnlessInVain(config: StreamConfig, s: Stream, h: nat) returns (event: Event)
    requires Sound(config, s) && h < |s.tasks| && s.tasks[h].phase.Reserving?
    ensures Moves(config, s, event) || WaveInVain(config, s, h)
  {
    hide Sound, Reserve, RangeFits;
    event := Reserved(h);
    WaveInPlans(config, s, h);
    ReserveInVain(config, s, h);
  }

  lemma PlanMovesUnlessInVain(config: StreamConfig, s: Stream, h: nat, k: nat) returns (event: Event)
    requires Sound(config, s) && At(s.tasks, h, k, Room)
    ensures Moves(config, s, event) || PlanInVain(config, s, h, k)
  {
    hide Sound, Grant, Fits, PlanOf;
    event := Granted(h, k);
    MemberInPlans(config, s, h, k, Room);
    GrantInVain(config, s, h, k);
  }

  // ----- waiting for room means that something is charged

  lemma WaveInVainNeedsCharge(config: StreamConfig, s: Stream, h: nat)
    requires Sound(config, s) && Drowsy(config, s) && h < |s.tasks| && s.tasks[h].phase.Reserving?
    ensures WaveInVain(config, s, h) ==> s.held != {} && s.quarantine == {} && Scarce(config)
  {
    hide Sound, RangeFits, Scarce;
    var low := s.tasks[h].start + s.tasks[h].offset;
    SoundBooks(config, s);
    StillQuarantined(config, s);
    WaveInPlans(config, s, h);
    if WaveInVain(config, s, h) && OfWave(h) !in s.asleep {
      WaveFindsNoRoom(config, s, low, low + s.tasks[h].phase.size);
    }
  }

  lemma PlanInVainNeedsCharge(config: StreamConfig, s: Stream, h: nat, k: nat)
    requires Sound(config, s) && Drowsy(config, s) && At(s.tasks, h, k, Room)
    ensures PlanInVain(config, s, h, k) ==> s.held != {} && s.quarantine == {} && Scarce(config)
  {
    hide Sound, Fits, Scarce, PlanOf;
    SoundBooks(config, s);
    StillQuarantined(config, s);
    MemberInPlans(config, s, h, k, Room);
    if PlanInVain(config, s, h, k) && OfPlan(h, k) !in s.asleep {
      PlanFindsNoRoom(config, s, PlanOf(s.tasks[h], k));
    }
  }

  // ----- when no task can move at once

  /** No task can move at once, and no episode is running. */
  ghost predicate AllWait(s: Stream) {
    forall h :: 0 <= h < |s.tasks| ==> !AtOnce(s.tasks[h]) && !HasSome(s.tasks[h], Working)
  }

  /** No wave is charged while it waits for workers. */
  ghost predicate NoWaveWaits(s: Stream) {
    forall h :: 0 <= h < |s.tasks| && s.tasks[h].waves ==> !s.tasks[h].phase.Collecting?
  }

  /** Without episodes and without such waves, only quarantined plans are charged. */
  lemma OnlyQuarantineCharged(config: StreamConfig, s: Stream)
    requires Sound(config, s) && AllWait(s) && NoWaveWaits(s)
    ensures s.held == s.quarantine
  {
    hide Sound, Books, Bounds, Shape, WholeWaves, Marks, TaskOk, AtOnce, HasSome;
    BooksOf(config, s);
    QuarantinedAreHeld(config, s);
    HeldAreSubmitted(config, s);
    SlotOwners(config, s);
    forall i | i in s.held ensures i in s.quarantine {
      var h := OwnerOf(s.tasks, i);
      SoundTask(config, s, h);
      ResultsSoFar(config, s.plans, s.cancelled, s.tasks[h]);
      NotCharged(s, s.tasks[h], i);
    }
  }

  lemma BooksOf(config: StreamConfig, s: Stream)
    requires Sound(config, s)
    ensures Books(config, s) && config.Valid() && |s.busy| <= config.limits.maxWorkers
    ensures forall g: nat :: g in s.slots <==> g < |s.tasks| && InSlot(s.tasks[g])
  {
    hide Books, Owners, TaskOk;
  }

  lemma NotCharged(s: Stream, task: Task, i: nat)
    requires Marks(task, s.held, s.quarantine, s.busy) && task.start <= i < task.stop && i in s.held
    requires !AtOnce(task) && !HasSome(task, Working) && (task.waves ==> !task.phase.Collecting?)
    requires task.phase.Collecting? ==> task.waves || task.offset == 0
    ensures i in s.quarantine
  {
    hide Outcome.Safe, SettledOutcome, HasWorker;
    assert Marked(task, s.held, s.quarantine, s.busy, i);
    if task.phase.Collecting? && i - task.start < |task.phase.members| {
      assert HasMember(task, i - task.start, task.phase.members[i - task.start]);
    }
  }

  /** A plan that holds a worker without running waits for room, and its group has no waves. */
  lemma BusyInRoom(config: StreamConfig, s: Stream, i: nat) returns (h: nat)
    requires Sound(config, s) && AllWait(s) && i in s.busy
    ensures h < |s.tasks| && !s.tasks[h].waves && HasSome(s.tasks[h], Room)
  {
    hide Sound, Books, Bounds, WholeWaves, Marks, TaskOk, AtOnce, HasSome, Split, GoodWave, IdentifiedBy, CalledOff;
    BusyIsPlan(config, s, i);
    SlotOwners(config, s);
    h := OwnerOf(s.tasks, i);
    SoundTask(config, s, h);
    BusyHasWorker(s, s.tasks[h], i);
    RoomOf(s.tasks[h], i);
  }

  lemma RoomOf(task: Task, i: nat)
    requires HasWorker(task, i) && !HasSome(task, Working)
    requires task.waves ==> forall k :: 0 <= k < |task.phase.members| ==> !task.phase.members[k].Room?
    ensures !task.waves && HasSome(task, Room)
  {
    var k := i - task.start - task.offset;
    assert HasMember(task, k, task.phase.members[k]);
  }

  /** A batch that is not over has a plan that waits for a worker or for room, or one that runs. */
  lemma SomeUnfinished(task: Task) returns (k: nat)
    requires task.phase.Collecting? && !AllDone(task.phase.members)
    ensures HasMember(task, k, Waiting) || HasMember(task, k, Room) || HasMember(task, k, Working)
  {
    k :| 0 <= k < |task.phase.members| && !task.phase.members[k].Done?;
  }

  // ----- no other deadlock

  /** With all workers free, some task can take one, or a slot, as long as none waits for capacity. */
  lemma FreeMoves(config: StreamConfig, s: Stream, g: nat) returns (event: Event)
    requires Sound(config, s) && AllWait(s) && g < |s.tasks| && s.tasks[g].phase != Returned
    requires forall h :: 0 <= h < |s.tasks| ==> !s.tasks[h].phase.Reserving? && !HasSome(s.tasks[h], Room)
    ensures Moves(config, s, event)
  {
    hide Sound, Moves, HasSome;
    BooksOf(config, s);
    NobodyBusy(config, s);
    if h: nat :| h < |s.tasks| && s.tasks[h].phase.Collecting? {
      var k := SomeUnfinished(s.tasks[h]);
      OnlyWaits(s.tasks[h], k);
      event := WaitingMoves(config, s, h, k);
    } else {
      NoSlots(s);
      SoundBooks(config, s);
      event := QueuedMoves(config, s, g);
    }
  }

  lemma NobodyBusy(config: StreamConfig, s: Stream)
    requires Sound(config, s) && AllWait(s)
    requires forall h :: 0 <= h < |s.tasks| ==> !HasSome(s.tasks[h], Room)
    ensures s.busy == {}
  {
    hide Sound, AllWait, HasSome;
    if i :| i in s.busy {
      var h := BusyInRoom(config, s, i);
    }
  }

  lemma OnlyWaits(task: Task, k: nat)
    requires !HasSome(task, Room) && !HasSome(task, Working)
    requires HasMember(task, k, Waiting) || HasMember(task, k, Room) || HasMember(task, k, Working)
    ensures HasMember(task, k, Waiting)
  {
  }

  /** Tasks that are not queued and not over hold the slots. */
  lemma NoSlots(s: Stream)
    requires forall g: nat :: g in s.slots <==> g < |s.tasks| && InSlot(s.tasks[g])
    requires AllWait(s)
    requires forall h :: 0 <= h < |s.tasks| ==> !s.tasks[h].phase.Reserving? && !s.tasks[h].phase.Collecting?
    ensures s.slots == {}
    ensures forall h :: 0 <= h < |s.tasks| && s.tasks[h].phase != Returned ==> s.tasks[h].phase == Queued
  {
    hide HasSome;
  }

  lemma WavesHaveNoRoom(config: StreamConfig, s: Stream, h: nat)
    requires Sound(config, s) && h < |s.tasks| && s.tasks[h].waves
    ensures !HasSome(s.tasks[h], Room)
  {
    hide Books, Bounds, Owners, WholeWaves, Marks, Split, GoodWave, IdentifiedBy, CalledOff;
    assert TaskOk(config, s, s.tasks[h]);
  }

  // ----- no other deadlock

  /** With everybody waiting, a charged wave has a plan that waits for a worker, or some task can move. */
  lemma ChargedWaveWaits(config: StreamConfig, s: Stream, g: nat) returns (event: Event)
    requires Sound(config, s) && Drowsy(config, s) && AllWait(s) && g < |s.tasks| && s.tasks[g].phase != Returned
    requires forall h :: 0 <= h < |s.tasks| ==> Standstill(config, s, h)
    ensures Moves(config, s, event) || exists h :: 0 <= h < |s.tasks| && s.tasks[h].waves && HasSome(s.tasks[h], Waiting)
  {
    hide Sound, AllWait, Moves, NoWaveWaits, HasSome, Drowsy, Standstill;
    event := Cancellation;
    if s.held == s.quarantine {
      NobodyInVain(config, s);
      event := FreeMoves(config, s, g);
    } else {
      SomeWaveWaits(config, s);
      var h := WaveOnTheWay(s);
      WavesHaveNoRoom(config, s, h);
      var k := SomeUnfinished(s.tasks[h]);
      NoneWorks(s, h);
      OnlyWaits(s.tasks[h], k);
      HasIt(s.tasks[h], k, Waiting);
    }
  }

  lemma NoneWorks(s: Stream, h: nat)
    requires AllWait(s) && h < |s.tasks|
    ensures !HasSome(s.tasks[h], Working) && !AtOnce(s.tasks[h])
  {
    hide HasSome, AtOnce;
  }

  lemma HasIt(task: Task, k: nat, member: Member)
    requires HasMember(task, k, member)
    ensures HasSome(task, member)
  {
  }

  lemma SomeWaveWaits(config: StreamConfig, s: Stream)
    requires Sound(config, s) && AllWait(s) && s.held != s.quarantine
    ensures !NoWaveWaits(s)
  {
    hide Sound, AllWait, NoWaveWaits;
    if NoWaveWaits(s) {
      OnlyQuarantineCharged(config, s);
    }
  }

  lemma WaveOnTheWay(s: Stream) returns (h: nat)
    requires AllWait(s) && !NoWaveWaits(s)
    ensures h < |s.tasks| && s.tasks[h].waves && s.tasks[h].phase.Collecting? && !AllDone(s.tasks[h].phase.members)
  {
    hide HasSome, AllDone;
    h :| 0 <= h < |s.tasks| && s.tasks[h].waves && s.tasks[h].phase.Collecting?;
  }

  lemma NobodyInVain(config: StreamConfig, s: Stream)
    requires Sound(config, s) && Drowsy(config, s) && s.held == s.quarantine
    requires forall h :: 0 <= h < |s.tasks| ==> Standstill(config, s, h)
    ensures forall h :: 0 <= h < |s.tasks| ==> !s.tasks[h].phase.Reserving? && !HasSome(s.tasks[h], Room)
  {
    hide Sound, Drowsy, WaveInVain, PlanInVain, AllDone;
    forall h | 0 <= h < |s.tasks| ensures !s.tasks[h].phase.Reserving? && !HasSome(s.tasks[h], Room) {
      assert Standstill(config, s, h);
      if s.tasks[h].phase.Reserving? {
        WaveInVainNeedsCharge(config, s, h);
      }
      if k: nat :| HasMember(s.tasks[h], k, Room) {
        PlanInVainNeedsCharge(config, s, h, k);
      }
    }
  }

  lemma TaskMovesOrWaits(config: StreamConfig, s: Stream, h: nat) returns (event: Event)
    requires Sound(config, s) && h < |s.tasks|
    ensures Moves(config, s, event) || Standstill(config, s, h)
  {
    hide Sound, Moves, AllDone, WaveInVain, PlanInVain;
    event := Cancellation;
    match s.tasks[h].phase
    case Queued =>
      if |s.slots| < config.limits.maxGroups {
        event := QueuedMoves(config, s, h);
      }
    case Reserving(_) => event := WaveMovesUnlessInVain(config, s, h);
    case Returned =>
    case Collecting(members) =>
      if AllDone(members) {
        event := AtOnceMoves(config, s, h);
      } else if k: nat :| HasMember(s.tasks[h], k, Working) {
        event := WorkingMoves(config, s, h, k);
      } else if k: nat :| At(s.tasks, h, k, Room) && !PlanInVain(config, s, h, k) {
        event := PlanMovesUnlessInVain(config, s, h, k);
      }
    case _ => event := AtOnceMoves(config, s, h);
  }

  lemma StandstillWaits(config: StreamConfig, s: Stream, h: nat)
    requires h < |s.tasks| && Standstill(config, s, h)
    ensures !AtOnce(s.tasks[h]) && !HasSome(s.tasks[h], Working)
  {
    hide AllDone, WaveInVain, PlanInVain;
  }

  /** As long as some group is not handed back, some task can move by itself, or the stream is stuck. */
  lemma MovesUnlessStuck(config: StreamConfig, s: Stream, g: nat) returns (event: Event)
    requires Sound(config, s) && Drowsy(config, s) && g < |s.tasks| && s.tasks[g].phase != Returned
    ensures Moves(config, s, event) || Stuck(config, s)
  {
    hide Sound, Drowsy, Moves, HasSome, Standstill, AtOnce;
    if h: nat :| h < |s.tasks| && !Standstill(config, s, h) {
      event := TaskMovesOrWaits(config, s, h);
    } else {
      forall h | 0 <= h < |s.tasks| ensures !AtOnce(s.tasks[h]) && !HasSome(s.tasks[h], Working) {
        StandstillWaits(config, s, h);
      }
      event := ChargedWaveWaits(config, s, g);
      if h: nat :| h < |s.tasks| && s.tasks[h].waves && HasSome(s.tasks[h], Waiting) {
        BooksOf(config, s);
        if |s.busy| < config.limits.maxWorkers {
          event := SomeWaitingMoves(config, s, h);
        }
      }
    }
  }

  lemma SomeWaitingMoves(config: StreamConfig, s: Stream, h: nat) returns (event: Event)
    requires h < |s.tasks| && HasSome(s.tasks[h], Waiting) && |s.busy| < config.limits.maxWorkers
    ensures Moves(config, s, event)
  {
    hide Moves, HasMember;
    var k: nat :| HasMember(s.tasks[h], k, Waiting);
    event := WaitingMoves(config, s, h, k);
  }

  // ----- and in it nothing moves

  lemma StandstillTask(config: StreamConfig, s: Stream, g: nat, ok: bool)
    requires g < |s.tasks| && Standstill(config, s, g)
    ensures Enter(config, s, g) == s && Choose(config, s, g) == s && Admitted(s, g, ok) == s
    ensures Gathered(s, g, ok) == s && Settle(s, g) == s && HandBack(s, g) == s
  {
    hide AllDone, HasSome, WaveInVain, PlanInVain;
  }

  lemma StandstillWave(config: StreamConfig, s: Stream, g: nat)
    requires g < |s.tasks| && Standstill(config, s, g) && s.tasks[g].phase.Reserving?
    ensures OfWave(g) in s.asleep || Reserve(config, s, g) == s
  {
    hide HasSome, PlanInVain, AllDone, RangeFits;
  }

  lemma StandstillPlan(config: StreamConfig, s: Stream, g: nat, k: nat)
    requires g < |s.tasks| ==> Standstill(config, s, g)
    ensures At(s.tasks, g, k, Room) ==> OfPlan(g, k) in s.asleep || Grant(config, s, g, k) == s
    ensures !At(s.tasks, g, k, Working)
  {
    hide AllDone, HasSome, Fits;
    if g < |s.tasks| && s.tasks[g].phase.Collecting? {
      NoSuchMember(s.tasks[g], k, Working);
    }
  }

  lemma NoSuchMember(task: Task, k: nat, member: Member)
    ensures HasMember(task, k, member) ==> HasSome(task, member)
  {
  }

  lemma StuckStandsStill(config: StreamConfig, s: Stream, event: Event)
    requires Stuck(config, s)
    ensures !Moves(config, s, event)
  {
    hide Standstill, HasSome, Enter, Choose, Reserve, Admitted, Gathered, Settle, HandBack, Grant;
    match event
    case Entering(g) => if g < |s.tasks| { StandstillTask(config, s, g, true); }
    case LoopHead(g) => if g < |s.tasks| { StandstillTask(config, s, g, true); }
    case Reserved(g) => if g < |s.tasks| && s.tasks[g].phase.Reserving? { StandstillWave(config, s, g); }
    case HookReturned(g, ok) => if g < |s.tasks| { StandstillTask(config, s, g, ok); }
    case Started(g, k) =>
    case Granted(g, k) => StandstillPlan(config, s, g, k);
    case Finished(g, k, outcome) => StandstillPlan(config, s, g, k);
    case BatchEnded(g, uncertain) => if g < |s.tasks| { StandstillTask(config, s, g, uncertain); }
    case Settled(g) => if g < |s.tasks| { StandstillTask(config, s, g, true); }
    case Handed(g) => if g < |s.tasks| { StandstillTask(config, s, g, true); }
    case _ =>
  }

  /** In every reachable state with a group not handed back, no task can move exactly if the stream is stuck. */
  lemma StuckIff(config: StreamConfig, events: seq<Event>, g: nat)
    requires config.Valid() && GoodEvents(events)
    requires var s := Execute(config, events); g < |s.tasks| && s.tasks[g].phase != Returned
    ensures var s := Execute(config, events);
            (forall event :: !Moves(config, s, event)) <==> Stuck(config, s)
  {
    hide Execute, Sound, Drowsy, Moves, Stuck;
    var s := Execute(config, events);
    ExecuteSound(config, events);
    ExecuteDrowsy(config, events);
    var move := MovesUnlessStuck(config, s, g);
    forall event | Stuck(config, s) ensures !Moves(config, s, event) {
      StuckStandsStill(config, s, event);
    }
  }

  // ----- cancelling

  /** Nobody who waits for room is about to check. */
  ghost predicate AllAsleep(s: Stream) {
    && (forall h: nat :: h < |s.tasks| && s.tasks[h].phase.Reserving? ==> OfWave(h) in s.asleep)
    && (forall h: nat, k: nat :: At(s.tasks, h, k, Room) ==> OfPlan(h, k) in s.asleep)
  }

  /** Cancelling a stuck stream notifies nobody: it stays stuck exactly if all who wait for room sleep already. */
  lemma CancellationWakesNobody(config: StreamConfig, s: Stream)
    requires Stuck(config, s)
    ensures Stuck(config, Step(config, s, Cancellation)) <==> AllAsleep(s)
  {
    hide HasSome, AllDone, Fits, RangeFits;
    var t := Step(config, s, Cancellation);
    if AllAsleep(s) {
      forall h | 0 <= h < |t.tasks| ensures Standstill(config, t, h) {
        assert Standstill(config, s, h);
      }
    }
    if Stuck(config, t) {
      forall h: nat | h < |s.tasks| && s.tasks[h].phase.Reserving? ensures OfWave(h) in s.asleep {
        assert Standstill(config, t, h);
      }
      forall h: nat, k: nat | At(s.tasks, h, k, Room) ensures OfPlan(h, k) in s.asleep {
        assert Standstill(config, t, h) && At(t.tasks, h, k, Room);
      }
    }
  }

  /** Pausing, and with it closing, does notify: then a cancelled stream is never stuck. */
  lemma PausingFrees(config: StreamConfig, s: Stream)
    requires Sound(config, s) && s.cancelled
    ensures !Stuck(config, Step(config, s, Pausing))
  {
    hide Sound, Drowsy;
    var t := Step(config, s, Pausing);
    if Stuck(config, t) {
      StepSound(config, s, Pausing);
      var h, k := SomeRoom(config, t);
      AwakeIsFree(config, t, h, k);
    }
  }

  lemma AwakeIsFree(config: StreamConfig, s: Stream, h: nat, k: nat)
    requires s.cancelled && s.asleep == {} && At(s.tasks, h, k, Room)
    ensures !Standstill(config, s, h)
  {
    hide AllDone, HasSome;
  }

  lemma SomeRoom(config: StreamConfig, s: Stream) returns (h: nat, k: nat)
    requires Sound(config, s) && Stuck(config, s)
    ensures At(s.tasks, h, k, Room) && !s.tasks[h].waves
  {
    hide Sound, HasSome, Standstill, AtOnce;
    SoundBooks(config, s);
    forall h | 0 <= h < |s.tasks| ensures !AtOnce(s.tasks[h]) && !HasSome(s.tasks[h], Working) {
      StandstillWaits(config, s, h);
    }
    var i := SomebodyBusy(config, s);
    h := BusyInRoom(config, s, i);
    k := RoomAt(s.tasks, h);
  }

  lemma SomebodyBusy(config: StreamConfig, s: Stream) returns (i: nat)
    requires |s.busy| == config.limits.maxWorkers && config.Valid()
    ensures i in s.busy
  {
    assert s.busy != {};
    i :| i in s.busy;
  }

  lemma RoomAt(tasks: seq<Task>, h: nat) returns (k: nat)
    requires h < |tasks| && HasSome(tasks[h], Room)
    ensures At(tasks, h, k, Room)
  {
    k :| HasMember(tasks[h], k, Room);
  }

  // ----- where no deadlock is possible

  /** All groups run in waves, or none does. */
  ghost predicate Uniform(tasks: seq<Task>) {
    forall g, h :: 0 <= g < |tasks| && 0 <= h < |tasks| ==> tasks[g].waves == tasks[h].waves
  }

  /** So groups that all run in waves, or all without, never wait for each other for ever, however many run at once. */
  lemma UniformNeverStuck(config: StreamConfig, events: seq<Event>, g: nat) returns (event: Event)
    requires config.Valid() && GoodEvents(events)
    requires var s := Execute(config, events); g < |s.tasks| && s.tasks[g].phase != Returned && Uniform(s.tasks)
    ensures Moves(config, Execute(config, events), event)
  {
    hide Execute, Sound, Moves, Drowsy, Stuck;
    var s := Execute(config, events);
    ExecuteSound(config, events);
    ExecuteDrowsy(config, events);
    event := MovesUnlessStuck(config, s, g);
    if Stuck(config, s) {
      StuckIsMixed(config, s);
    }
  }

  lemma StuckIsMixed(config: StreamConfig, s: Stream)
    requires Sound(config, s) && Stuck(config, s)
    ensures !Uniform(s.tasks)
  {
    hide Sound, HasSome, Standstill;
    var h, k := SomeRoom(config, s);
  }

  /** Under terminal waves a reservation never has to wait: at its first check it fits, or the stream is cancelled. */
  lemma ReservationNeverWaits(config: StreamConfig, events: seq<Event>, g: nat)
    requires config.Valid() && GoodEvents(events) && config.limits.maxGroups == 1
    requires var s := Execute(config, events); g < |s.tasks| && s.tasks[g].phase.Reserving?
    ensures var s := Execute(config, events);
            Step(config, s, Reserved(g)).tasks[g].phase == (if s.cancelled then Choosing else Opening(s.tasks[g].phase.size))
  {
    hide Execute, Sound, Drowsy, WaveInVain, RangeFits, CreditRange, Range;
    var s := Execute(config, events);
    ExecuteSound(config, events);
    ExecuteDrowsy(config, events);
    OneGroupHolds(config, s, g);
    WaveInVainNeedsCharge(config, s, g);
    WaveInPlans(config, s, g);
    NotInVain(config, s, g);
  }

  lemma OneGroupHolds(config: StreamConfig, s: Stream, g: nat)
    requires Sound(config, s) && config.limits.maxGroups == 1 && g < |s.tasks| && s.tasks[g].phase.Reserving?
    ensures s.held == s.quarantine
  {
    hide Sound;
    forall h | 0 <= h < |s.tasks|
      ensures !InSlot(s.tasks[h]) || s.tasks[h].phase.Reserving? || s.tasks[h].phase.Choosing?
    {
      if InSlot(s.tasks[h]) {
        OneSlot(config, s, g, h);
      }
    }
    OnlyQuarantineHeld(config, s);
  }

  lemma NotInVain(config: StreamConfig, s: Stream, g: nat)
    requires g < |s.tasks| && s.tasks[g].phase.Reserving? && !WaveInVain(config, s, g)
    requires s.tasks[g].start + s.tasks[g].offset + s.tasks[g].phase.size <= |s.plans|
    ensures Step(config, s, Reserved(g)).tasks[g].phase == (if s.cancelled then Choosing else Opening(s.tasks[g].phase.size))
  {
    hide RangeFits, CreditRange, Range;
  }
}
