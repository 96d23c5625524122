/** What every execution of a stream delivers. */
module StreamResults {
  import opened Basics
  import opened Resources
  import opened CoordinatorSpec
  import opened StreamSpec
  import opened StreamTheorems

  // ----- waves

  /** Waves that follow one another in order from `low` to `high`. */
  ghost predicate InOrder(history: seq<Wave>, low: nat, high: nat) {
    if history == [] then low == high
    else
      && history[0].low == low && history[|history| - 1].high == high
      && forall v, w :: 0 <= v && w == v + 1 < |history| ==> history[v].high == history[w].low
  }

  lemma {:induction false} SplitInOrder(config: StreamConfig, plans: seq<Plan>, history: seq<Wave>, low: nat, high: nat)
    requires Split(config, plans, history, low, high)
    ensures InOrder(history, low, high)
    ensures forall w :: 0 <= w < |history| ==> GoodWave(config, plans, history[w].low, history[w].high)
  {
    hide RangeFits, GoodWave;
    if history != [] {
      var front, last := history[..|history| - 1], history[|history| - 1];
      SplitInOrder(config, plans, front, low, last.low);
      forall w | 0 <= w < |history| ensures GoodWave(config, plans, history[w].low, history[w].high) {
        if w < |front| {
          assert front[w] == history[w];
        }
      }
    }
  }

  /** The settled waves of a group follow one another in order from its first plan on, each no longer than the
      worker limit and within the capacity of empty executors; a group that is over without having been called
      off is split entirely. */
  lemma WavesSplitTheGroup(config: StreamConfig, events: seq<Event>, g: nat)
    requires config.Valid() && GoodEvents(events) && g < |Execute(config, events).tasks|
    requires Execute(config, events).tasks[g].waves
    ensures var s := Execute(config, events);
            var task := s.tasks[g];
            && InOrder(task.history, task.start, task.start + task.offset)
            && (forall w :: 0 <= w < |task.history| ==>
                  GoodWave(config, s.plans, task.history[w].low, task.history[w].high))
            && (Over(task) && !s.cancelled ==> task.start + task.offset == task.stop)
  {
    hide Sound, Execute, Split, GoodWave, Marks, WholeWaves, Books, Bounds, InOrder, GoodEvents;
    var s := Execute(config, events);
    var task := s.tasks[g];
    ExecuteSound(config, events);
    SoundTask(config, s, g);
    SplitInOrder(config, s.plans, task.history, task.start, task.start + task.offset);
  }

  /** A settled wave was released whole, with results that prove its cleanup, or is quarantined whole, with
      results none of which does. */
  lemma WavesSettleWhole(config: StreamConfig, events: seq<Event>, g: nat, w: nat, i: nat)
    requires config.Valid() && GoodEvents(events) && g < |Execute(config, events).tasks|
    requires w < |Execute(config, events).tasks[g].history|
    requires var wave := Execute(config, events).tasks[g].history[w]; wave.low <= i < wave.high
    requires Execute(config, events).tasks[g].waves
    ensures var s := Execute(config, events);
            var task := s.tasks[g];
            && task.start <= i < task.start + |task.results|
            && (if task.history[w].released then i !in s.held else i in s.held && i in s.quarantine)
            && (task.results[i - task.start].outcome.Safe() <==> task.history[w].released)
  {
    hide Sound, Execute, Shape, Marks, WholeWaves, Books, Bounds, GoodEvents;
    var s := Execute(config, events);
    ExecuteSound(config, events);
    SoundTask(config, s, g);
    QuarantinedAreHeld(config, s);
    WaveIsWhole(config, s, s.tasks[g], w, i);
  }

  lemma WaveIsWhole(config: StreamConfig, s: Stream, task: Task, w: nat, i: nat)
    requires Shape(config, s.plans, s.cancelled, task) && Marks(task, s.held, s.quarantine, s.busy)
    requires HistoryBelow(task.history, task.start, task.start + task.offset) && task.waves
    requires WholeWaves(task.history, s.held, s.quarantine)
    requires w < |task.history| && task.history[w].low <= i < task.history[w].high
    ensures task.start <= i < task.start + |task.results|
    ensures if task.history[w].released then i !in s.held && i !in s.quarantine else i in s.quarantine
    ensures task.results[i - task.start].outcome.Safe() <==> task.history[w].released
  {
    hide Shape, Outcome.Safe;
    ResultsReachOffset(config, s.plans, s.cancelled, task);
    assert Marked(task, s.held, s.quarantine, s.busy, i);
  }

  lemma ResultsReachOffset(config: StreamConfig, plans: seq<Plan>, cancelled: bool, task: Task)
    requires Shape(config, plans, cancelled, task)
    ensures task.start + task.offset <= task.stop <= |plans| && task.offset <= |task.results|
  {
    hide Split, GoodWave;
  }

  lemma QuarantinedAreHeld(config: StreamConfig, s: Stream)
    requires Sound(config, s)
    ensures s.quarantine <= s.held
  {
    hide Bounds, Owners, TaskOk, Accounts, WithinCapacity;
  }

  // ----- results

  /** A finished group has one result per plan in the caller's order, even when it was called off midway, and
      exactly the plans whose results leave their cleanup unproven are quarantined. */
  lemma OneResultPerPlan(config: StreamConfig, events: seq<Event>, g: nat)
    requires config.Valid() && GoodEvents(events) && g < |Execute(config, events).tasks|
    requires Over(Execute(config, events).tasks[g])
    ensures var s := Execute(config, events);
            var task := s.tasks[g];
            && task.stop <= |s.plans| && |task.results| == task.stop - task.start
            && forall k: nat :: k < |task.results| ==>
                 && task.results[k].identity == s.plans[task.start + k].identity
                 && (task.results[k].outcome.Safe() <==> task.start + k !in s.quarantine)
  {
    hide Sound, Execute, Shape, Marks, WholeWaves, Books, Bounds, GoodEvents;
    var s := Execute(config, events);
    ExecuteSound(config, events);
    SoundTask(config, s, g);
    OverResults(config, s, s.tasks[g]);
  }

  lemma OverResults(config: StreamConfig, s: Stream, task: Task)
    requires Shape(config, s.plans, s.cancelled, task) && Marks(task, s.held, s.quarantine, s.busy) && Over(task)
    ensures task.stop <= |s.plans| && |task.results| == task.stop - task.start
    ensures forall k: nat :: k < |task.results| ==>
              && task.results[k].identity == s.plans[task.start + k].identity
              && (task.results[k].outcome.Safe() <==> task.start + k !in s.quarantine)
  {
    hide Split, GoodWave, Outcome.Safe;
    forall k: nat | k < |task.results| ensures task.results[k].outcome.Safe() <==> task.start + k !in s.quarantine {
      assert Marked(task, s.held, s.quarantine, s.busy, task.start + k);
    }
  }

  // ----- charges

  /** At every step of every interleaving, what is reserved is exactly the charges held and within capacity. */
  lemma ReservedIsHeld(config: StreamConfig, events: seq<Event>, account: Account)
    requires config.Valid() && GoodEvents(events)
    ensures var s := Execute(config, events);
            && Balance(s.reserved, account) == HeldTotal(Requirements(s.plans), s.held, account)
            && Balance(s.quarantined, account) == HeldTotal(Requirements(s.plans), s.quarantine, account)
            && (account.executor in config.limits.capacities ==>
                  Balance(s.reserved, account) <= config.limits.capacities[account.executor].Of(account.quantity))
            && |s.busy| <= config.limits.maxWorkers && |s.slots| <= config.limits.maxGroups
            && s.pending == Outstanding(s.tasks) <= config.maxPending
  {
    ExecuteSound(config, events);
    hide Owners, TaskOk;
  }

  /** When every group has been handed back, nothing is reserved but what is quarantined. */
  lemma AllReturnedLeavesQuarantine(config: StreamConfig, events: seq<Event>, account: Account)
    requires config.Valid() && GoodEvents(events) && AllReturned(Execute(config, events))
    ensures var s := Execute(config, events);
            s.held == s.quarantine && Balance(s.reserved, account) == Balance(s.quarantined, account)
  {
    var s := Execute(config, events);
    ExecuteSound(config, events);
    OnlyQuarantineHeld(config, s);
    ReservedIsHeld(config, events, account);
  }

  /** With no task between its slot and its results, whatever is held is quarantined. */
  lemma OnlyQuarantineHeld(config: StreamConfig, s: Stream)
    requires Sound(config, s)
    requires forall h :: 0 <= h < |s.tasks| ==> !InSlot(s.tasks[h]) || s.tasks[h].phase.Reserving? || s.tasks[h].phase.Choosing?
    ensures s.held == s.quarantine
  {
    hide Books, Bounds, Shape, WholeWaves, Marks, TaskOk;
    QuarantinedAreHeld(config, s);
    HeldAreSubmitted(config, s);
    forall i | i in s.held ensures i in s.quarantine {
      assert Owned(s.tasks, i);
      var h :| 0 <= h < |s.tasks| && s.tasks[h].start <= i < s.tasks[h].stop;
      SoundTask(config, s, h);
      UnchargedIsQuarantined(s, s.tasks[h], i);
    }
  }

  lemma UnchargedIsQuarantined(s: Stream, task: Task, i: nat)
    requires Marks(task, s.held, s.quarantine, s.busy) && task.start <= i < task.stop && i in s.held
    requires !InSlot(task) || task.phase.Reserving? || task.phase.Choosing?
    ensures i in s.quarantine
  {
    assert Marked(task, s.held, s.quarantine, s.busy, i);
  }

  // ----- progress under terminal waves

  /** Only one group has a slot at a time. */
  lemma OneSlot(config: StreamConfig, s: Stream, g: nat, h: nat)
    requires Sound(config, s) && config.limits.maxGroups == 1
    requires g < |s.tasks| && h < |s.tasks| && InSlot(s.tasks[g]) && InSlot(s.tasks[h])
    ensures g == h
  {
    hide Books, Owners, TaskOk;
    if g != h {
      assert g in s.slots && h in s.slots;
      SubsetSize({g, h}, s.slots);
    }
  }

  lemma FitsWhenEmpty(config: StreamConfig, s: Stream, low: nat, high: nat)
    requires Books(config, s) && s.held == {} && high <= |s.plans|
    requires RangeFits(map[], config.limits.capacities, s.plans, low, high)
    ensures RangeFits(s.reserved, config.limits.capacities, s.plans, low, high)
  {
    hide Fits, WithinCapacity, CreditRange;
    forall a ensures Balance(s.reserved, a) == 0.0 {
      NothingHeld(s.reserved, Requirements(s.plans), a);
    }
  }

  /** With one group at a time, a running plan is one of the batch's members, other than a waiting one. */
  lemma BusyInBatch(config: StreamConfig, s: Stream, g: nat, k: nat, i: nat)
    requires Sound(config, s) && config.limits.maxGroups == 1 && At(s.tasks, g, k, Waiting) && i in s.busy
    ensures var low := s.tasks[g].start + s.tasks[g].offset;
            low <= i < low + |s.tasks[g].phase.members| && i != low + k
  {
    hide Sound, Books, Bounds, Shape, WholeWaves, Marks, TaskOk, Owned;
    SoundTask(config, s, g);
    BusyIsPlan(config, s, i);
    SlotOwners(config, s);
    var h := OwnerOf(s.tasks, i);
    SoundTask(config, s, h);
    BusyHasWorker(s, s.tasks[h], i);
    OneSlot(config, s, g, h);
  }

  lemma BusyIsPlan(config: StreamConfig, s: Stream, i: nat)
    requires Sound(config, s) && i in s.busy
    ensures i < |s.plans|
  {
    hide Books, Owners, TaskOk;
  }

  lemma OwnerOf(tasks: seq<Task>, i: nat) returns (h: nat)
    requires Owned(tasks, i)
    ensures h < |tasks| && tasks[h].start <= i < tasks[h].stop
  {
    h :| 0 <= h < |tasks| && tasks[h].start <= i < tasks[h].stop;
  }

  /** Under terminal waves a worker is free for every plan of the running wave that still waits. */
  lemma WorkerIsFree(config: StreamConfig, s: Stream, g: nat, k: nat)
    requires Sound(config, s) && config.limits.maxGroups == 1 && At(s.tasks, g, k, Waiting) && s.tasks[g].waves
    ensures |s.busy| < config.limits.maxWorkers
  {
    hide *;
    WaveWithinWorkers(config, s, g, k);
    var low := s.tasks[g].start + s.tasks[g].offset;
    forall i | i in s.busy ensures low <= i < low + |s.tasks[g].phase.members| && i != low + k {
      BusyInBatch(config, s, g, k, i);
    }
    FewerThanRange(s.busy, low, low + |s.tasks[g].phase.members|, low + k);
  }

  lemma WaveWithinWorkers(config: StreamConfig, s: Stream, g: nat, k: nat)
    requires Sound(config, s) && At(s.tasks, g, k, Waiting) && s.tasks[g].waves
    ensures g < |s.tasks| && s.tasks[g].phase.Collecting? && k < |s.tasks[g].phase.members| <= config.limits.maxWorkers
  {
    hide Sound, Shape, Marks;
    SoundTask(config, s, g);
    BatchWithinWorkers(config, s.plans, s.cancelled, s.tasks[g]);
  }

  /** Elements of a range that leave one of it out are fewer than the range is long. */
  lemma FewerThanRange(busy: set<nat>, low: nat, high: nat, out: nat)
    requires low <= out < high
    requires forall i :: i in busy ==> low <= i < high && i != out
    ensures |busy| < high - low
  {
    SubsetSize(busy, Range(low, high) - {out});
    RangeSize(low, high);
  }

  lemma SlotOwners(config: StreamConfig, s: Stream)
    requires Sound(config, s)
    ensures forall i: nat :: i < |s.plans| ==> Owned(s.tasks, i)
  {
    hide Books, Bounds, TaskOk;
  }

  lemma BusyHasWorker(s: Stream, task: Task, i: nat)
    requires Marks(task, s.held, s.quarantine, s.busy) && task.start <= i < task.stop && i in s.busy
    ensures InSlot(task) && HasWorker(task, i)
  {
    assert Marked(task, s.held, s.quarantine, s.busy, i);
  }

  lemma BatchWithinWorkers(config: StreamConfig, plans: seq<Plan>, cancelled: bool, task: Task)
    requires Shape(config, plans, cancelled, task) && task.waves && BatchSize(task) > 0
    ensures BatchSize(task) <= config.limits.maxWorkers
  {
    hide Split, RangeFits;
  }

  lemma {:induction false} RangeSize(low: nat, high: nat)
    requires low <= high
    ensures |Range(low, high)| == high - low
    decreases high
  {
    if low < high {
      RangeSize(low, high - 1);
    }
  }

  // ----- what is final

  ghost predicate ReturnedStay(tasks: seq<Task>, next: seq<Task>) {
    |tasks| <= |next| && forall g :: 0 <= g < |tasks| && tasks[g].phase == Returned ==> next[g] == tasks[g]
  }

  /** What no event takes back: results handed back stay as they are, quarantined charges stay quarantined, a
      cancelled stream stays cancelled and charges nothing more. */
  ghost predicate Onward(s: Stream, t: Stream) {
    && ReturnedStay(s.tasks, t.tasks) && s.quarantine <= t.quarantine
    && (s.cancelled ==> t.cancelled && t.held <= s.held)
  }

  lemma EnterOnward(config: StreamConfig, s: Stream, g: nat)
    requires g < |s.tasks|
    ensures Onward(s, Enter(config, s, g))
  {
  }

  lemma ChooseOnward(config: StreamConfig, s: Stream, g: nat)
    requires g < |s.tasks|
    ensures Onward(s, Choose(config, s, g))
  {
    hide Chosen;
  }

  lemma AdmittedOnward(s: Stream, g: nat, ok: bool)
    requires g < |s.tasks|
    ensures Onward(s, Admitted(s, g, ok))
  {
  }

  lemma HandBackOnward(s: Stream, g: nat)
    requires g < |s.tasks|
    ensures Onward(s, HandBack(s, g))
  {
  }

  lemma ReserveOnward(config: StreamConfig, s: Stream, g: nat)
    requires g < |s.tasks|
    ensures Onward(s, Reserve(config, s, g))
  {
    hide RangeFits, CreditRange, Range;
  }

  lemma SameStay(tasks: seq<Task>)
    ensures ReturnedStay(tasks, tasks)
  {
  }

  lemma PutMemberStays(s: Stream, g: nat, k: nat, member: Member)
    requires g < |s.tasks| && s.tasks[g].phase.Collecting? && k < |s.tasks[g].phase.members|
    ensures ReturnedStay(s.tasks, PutMember(s, g, k, member).tasks)
    ensures PutMember(s, g, k, member) == s.(tasks := PutMember(s, g, k, member).tasks)
  {
  }

  lemma StartOnward(config: StreamConfig, s: Stream, g: nat, k: nat)
    ensures Onward(s, Start(config, s, g, k))
  {
    hide PutMember, ReturnedStay, PlanOf;
    SameStay(s.tasks);
    if At(s.tasks, g, k, Waiting) {
      PutMemberStays(s, g, k, Room);
      PutMemberStays(s, g, k, Working);
      PutMemberStays(s, g, k, Done(NOT_ADMITTED));
    }
  }

  lemma GrantOnward(config: StreamConfig, s: Stream, g: nat, k: nat)
    ensures Onward(s, Grant(config, s, g, k))
  {
    hide Fits, Credit, PutMember, ReturnedStay, PlanOf;
    SameStay(s.tasks);
    if At(s.tasks, g, k, Room) {
      PutMemberStays(s, g, k, Working);
      PutMemberStays(s, g, k, Done(NOT_ADMITTED));
    }
  }

  lemma FinishOnward(s: Stream, g: nat, k: nat, outcome: Outcome)
    ensures Onward(s, Finish(s, g, k, outcome))
  {
    hide Credit, Debit, PutMember, ReturnedStay, PlanOf, Outcome.Safe;
    SameStay(s.tasks);
    if At(s.tasks, g, k, Working) {
      PutMemberStays(s, g, k, Done(outcome));
    }
  }

  lemma GatheredOnward(s: Stream, g: nat, uncertain: bool)
    requires g < |s.tasks|
    ensures Onward(s, Gathered(s, g, uncertain))
  {
    hide Identified, Outcomes;
  }

  lemma SettleOnward(s: Stream, g: nat)
    requires g < |s.tasks|
    ensures Onward(s, Settle(s, g))
  {
    hide CreditRange, DebitRange, ProvenSafe, Identified, Doubted, Range;
  }

  lemma SubmitOnward(config: StreamConfig, s: Stream, plans: seq<Plan>, sequence: int)
    ensures Onward(s, Submit(config, s, plans, sequence))
  {
    hide CheckSubmission, OwnersAfter;
  }

  lemma AttemptOnward(s: Stream, waiter: Waiter, t: Stream)
    requires Onward(s, t)
    ensures Onward(s, Attempt(s, waiter, t))
  {
  }

  lemma NotifiedOnward(s: Stream, t: Stream)
    requires Onward(s, t)
    ensures Onward(s, Notified(s, t))
  {
  }

  lemma FlagsOnward(s: Stream, paused: bool, closed: bool, cancelled: bool, asleep: set<Waiter>)
    requires s.cancelled ==> cancelled
    ensures Onward(s, s.(paused := paused, closed := closed, cancelled := cancelled, asleep := asleep))
  {
  }

  lemma StepOnward(config: StreamConfig, s: Stream, event: Event)
    ensures Onward(s, Step(config, s, event))
  {
    hide Onward, Submit, Enter, Choose, Reserve, Admitted, Start, Grant, Finish, Gathered, Settle, HandBack, AllReturned;
    hide Attempt, Notified;
    FlagsOnward(s, s.paused, s.closed, s.cancelled, s.asleep);
    match event
    case Submission(plans, sequence) => SubmitOnward(config, s, plans, sequence);
    case Entering(g) => if g < |s.tasks| { EnterOnward(config, s, g); }
    case LoopHead(g) => if g < |s.tasks| { ChooseOnward(config, s, g); }
    case Reserved(g) =>
      if g < |s.tasks| {
        ReserveOnward(config, s, g);
        AttemptOnward(s, OfWave(g), Reserve(config, s, g));
      }
    case HookReturned(g, ok) => if g < |s.tasks| { AdmittedOnward(s, g, ok); }
    case Started(g, k) => StartOnward(config, s, g, k);
    case Granted(g, k) =>
      GrantOnward(config, s, g, k);
      AttemptOnward(s, OfPlan(g, k), Grant(config, s, g, k));
    case Finished(g, k, outcome) =>
      FinishOnward(s, g, k, outcome);
      NotifiedOnward(s, Finish(s, g, k, outcome));
    case BatchEnded(g, uncertain) => if g < |s.tasks| { GatheredOnward(s, g, uncertain); }
    case Settled(g) =>
      if g < |s.tasks| {
        SettleOnward(s, g);
        NotifiedOnward(s, Settle(s, g));
      }
    case Handed(g) => if g < |s.tasks| { HandBackOnward(s, g); }
    case Cancellation => FlagsOnward(s, s.paused, s.closed, true, s.asleep);
    case Pausing => FlagsOnward(s, true, s.closed, s.cancelled, {});
    case Resuming => FlagsOnward(s, false, s.closed, s.cancelled, s.asleep);
    case Closing => FlagsOnward(s, true, true, s.cancelled, {});
  }

  lemma {:induction false} NothingTakenBack(config: StreamConfig, events: seq<Event>, k: nat)
    requires k <= |events|
    ensures Onward(Execute(config, events[..k]), Execute(config, events))
    decreases |events|
  {
    hide Step;
    if k == |events| {
      assert events[..k] == events;
    } else {
      var front := events[..|events| - 1];
      assert front[..k] == events[..k];
      NothingTakenBack(config, front, k);
      StepOnward(config, Execute(config, front), events[|events| - 1]);
    }
  }
}
