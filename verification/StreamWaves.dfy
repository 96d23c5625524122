/** Waves are as long as they can be, and a cancelled stream starts no episode. */
module StreamWaves {
  import opened Basics
  import opened Wrappers
  import opened Resources
  import opened CoordinatorSpec
  import opened StreamSpec
  import opened StreamCharges
  import opened StreamTheorems
  import R = StreamReports

  // ----- as long as they can be

  /** One plan more is not there, finds no worker, or has no room with the others on empty executors. */
  predicate Maximal(config: StreamConfig, plans: seq<Plan>, stop: nat, low: nat, high: nat) {
    || high == stop || high - low == config.limits.maxWorkers
    || (high < |plans| && !RangeFits(map[], config.limits.capacities, plans, low, high + 1))
  }

  ghost predicate AllMaximal(config: StreamConfig, plans: seq<Plan>, stop: nat, history: seq<Wave>) {
    forall w :: 0 <= w < |history| ==> Maximal(config, plans, stop, history[w].low, history[w].high)
  }

  /** So are the settled waves of a task, and the one it is at. */
  ghost predicate TaskMaximal(config: StreamConfig, plans: seq<Plan>, task: Task) {
    && AllMaximal(config, plans, task.stop, task.history)
    && (task.waves && BatchSize(task) > 0 ==>
          Maximal(config, plans, task.stop, task.start + task.offset, task.start + task.offset + BatchSize(task)))
  }

  ghost predicate StreamMaximal(config: StreamConfig, s: Stream) {
    forall g :: 0 <= g < |s.tasks| ==> TaskMaximal(config, s.plans, s.tasks[g])
  }

  /** A task that goes on with the same batch, or with none. */
  lemma SameBatch(config: StreamConfig, plans: seq<Plan>, task: Task, next: Task)
    requires TaskMaximal(config, plans, task) && next.stop == task.stop && next.history == task.history
    requires next.waves == task.waves
    requires BatchSize(next) == 0 || (next.start == task.start && next.offset == task.offset && BatchSize(next) == BatchSize(task))
             || !next.waves
    ensures TaskMaximal(config, plans, next)
  {
    hide Maximal;
  }

  lemma ChosenMaximal(config: StreamConfig, plans: seq<Plan>, cancelled: bool, task: Task)
    requires TaskMaximal(config, plans, task) && task.start + task.offset <= task.stop <= |plans|
    ensures TaskMaximal(config, plans, Chosen(config, plans, cancelled, task))
  {
    hide RangeFits, WaveSize;
    WaveSizeIsGreedy(config, plans, task.start + task.offset, task.stop, 0);
  }

  lemma SettledMaximal(config: StreamConfig, plans: seq<Plan>, task: Task)
    requires TaskMaximal(config, plans, task) && task.phase.Settling? && task.waves && |task.phase.observed| > 0
    requires task.start + task.offset + |task.phase.observed| <= |plans|
    ensures TaskMaximal(config, plans, SettledTask(plans, task))
  {
    hide Maximal, Identified, Doubted, ProvenSafe;
  }

  lemma OneMaximal(config: StreamConfig, s: Stream, t: Stream, g: nat)
    requires StreamMaximal(config, s) && t.plans == s.plans && g < |s.tasks| == |t.tasks|
    requires t.tasks == s.tasks[g := t.tasks[g]] && TaskMaximal(config, s.plans, t.tasks[g])
    ensures StreamMaximal(config, t)
  {
    hide TaskMaximal;
  }

  lemma SameMaximal(config: StreamConfig, s: Stream, t: Stream)
    requires StreamMaximal(config, s) && t.plans == s.plans && t.tasks == s.tasks
    ensures StreamMaximal(config, t)
  {
    hide TaskMaximal;
  }

  lemma TaskOf(config: StreamConfig, s: Stream, g: nat)
    requires StreamMaximal(config, s) && g < |s.tasks|
    ensures TaskMaximal(config, s.plans, s.tasks[g])
  {
    hide TaskMaximal;
  }

  /** A step that keeps a task's batch, or starts or ends it. */
  lemma BatchKept(config: StreamConfig, s: Stream, t: Stream, g: nat, next: Task)
    requires StreamMaximal(config, s) && g < |s.tasks| && t.plans == s.plans && t.tasks == s.tasks[g := next]
    requires var task := s.tasks[g];
             && next.stop == task.stop && next.history == task.history && next.waves == task.waves
             && (BatchSize(next) == 0 || !next.waves
                 || (next.start == task.start && next.offset == task.offset && BatchSize(next) == BatchSize(task)))
    ensures StreamMaximal(config, t)
  {
    hide TaskMaximal, StreamMaximal;
    TaskOf(config, s, g);
    SameBatch(config, s.plans, s.tasks[g], next);
    OneMaximal(config, s, t, g);
  }

  lemma EnterMaximal(config: StreamConfig, s: Stream, g: nat)
    requires StreamMaximal(config, s) && g < |s.tasks|
    ensures StreamMaximal(config, Enter(config, s, g))
  {
    hide StreamMaximal, Enter;
    EnterIs(config, s, g);
    var task := s.tasks[g];
    if Enter(config, s, g) != s {
      BatchKept(config, s, Enter(config, s, g), g,
                task.(phase := if task.waves then Choosing else Collecting(AllWaiting(task.stop - task.start))));
    }
  }

  lemma ChooseMaximal(config: StreamConfig, s: Stream, g: nat)
    requires StreamMaximal(config, s) && g < |s.tasks|
    ensures StreamMaximal(config, Choose(config, s, g))
  {
    hide StreamMaximal, TaskMaximal, Chosen;
    var task := s.tasks[g];
    if task.phase == Choosing && task.start + task.offset <= task.stop <= |s.plans| {
      TaskOf(config, s, g);
      ChosenMaximal(config, s.plans, s.cancelled, task);
      OneMaximal(config, s, Choose(config, s, g), g);
    }
  }

  lemma ReserveMaximal(config: StreamConfig, s: Stream, g: nat)
    requires StreamMaximal(config, s) && g < |s.tasks|
    ensures StreamMaximal(config, Reserve(config, s, g))
  {
    hide StreamMaximal, RangeFits, CreditRange, Range;
    var task, t := s.tasks[g], Reserve(config, s, g);
    if task.phase.Reserving? && t != s {
      BatchKept(config, s, t, g, task.(phase := if s.cancelled then Choosing else Opening(task.phase.size)));
    }
  }

  lemma AdmittedMaximal(config: StreamConfig, s: Stream, g: nat, ok: bool)
    requires StreamMaximal(config, s) && g < |s.tasks|
    ensures StreamMaximal(config, Admitted(s, g, ok))
  {
    hide StreamMaximal;
    var task := s.tasks[g];
    if task.phase.Opening? {
      BatchKept(config, s, Admitted(s, g, ok), g,
                task.(phase := if ok then Collecting(AllWaiting(task.phase.size))
                               else Settling(Repeat(UNRESOLVED, task.phase.size), true)));
    }
  }

  lemma MemberMaximal(config: StreamConfig, s: Stream, t: Stream, g: nat, k: nat, member: Member)
    requires StreamMaximal(config, s) && t.plans == s.plans
    requires g < |s.tasks| && s.tasks[g].phase.Collecting? && k < |s.tasks[g].phase.members|
    requires t.tasks == PutMember(s, g, k, member).tasks
    ensures StreamMaximal(config, t)
  {
    hide StreamMaximal;
    BatchKept(config, s, t, g, s.tasks[g].(phase := Collecting(s.tasks[g].phase.members[k := member])));
  }

  lemma StartMaximal(config: StreamConfig, s: Stream, g: nat, k: nat)
    requires StreamMaximal(config, s)
    ensures StreamMaximal(config, Start(config, s, g, k))
  {
    hide StreamMaximal, PutMember;
    var t := Start(config, s, g, k);
    if At(s.tasks, g, k, Waiting) && t != s {
      R.PutMemberPlans(s, g, k, Room);
      R.PutMemberPlans(s, g, k, Working);
      R.PutMemberPlans(s, g, k, Done(NOT_ADMITTED));
      MemberMaximal(config, s, t, g, k, if !s.tasks[g].waves then Room else if s.cancelled then Done(NOT_ADMITTED) else Working);
    }
  }

  lemma GrantMaximal(config: StreamConfig, s: Stream, g: nat, k: nat)
    requires StreamMaximal(config, s)
    ensures StreamMaximal(config, Grant(config, s, g, k))
  {
    hide StreamMaximal, PutMember, Fits;
    var t := Grant(config, s, g, k);
    if At(s.tasks, g, k, Room) && t != s {
      R.PutMemberPlans(s, g, k, Working);
      R.PutMemberPlans(s, g, k, Done(NOT_ADMITTED));
      MemberMaximal(config, s, t, g, k, if s.cancelled then Done(NOT_ADMITTED) else Working);
    }
  }

  lemma FinishMaximal(config: StreamConfig, s: Stream, g: nat, k: nat, outcome: Outcome)
    requires StreamMaximal(config, s)
    ensures StreamMaximal(config, Finish(s, g, k, outcome))
  {
    hide StreamMaximal, PutMember, Outcome.Safe, Credit, Debit;
    var t := Finish(s, g, k, outcome);
    if At(s.tasks, g, k, Working) && t != s {
      R.PutMemberPlans(s, g, k, Done(outcome));
      MemberMaximal(config, s, t, g, k, Done(outcome));
    }
  }

  lemma GatheredMaximal(config: StreamConfig, s: Stream, g: nat, uncertain: bool)
    requires StreamMaximal(config, s) && g < |s.tasks|
    ensures StreamMaximal(config, Gathered(s, g, uncertain))
  {
    hide StreamMaximal, AllDone, Identified;
    var task, t := s.tasks[g], Gathered(s, g, uncertain);
    if t != s {
      var observed := Outcomes(task.phase.members);
      BatchKept(config, s, t, g,
                if task.waves then task.(phase := Settling(observed, uncertain))
                else task.(phase := Complete, offset := task.offset + |observed|,
                           results := task.results + Identified(s.plans, task.start + task.offset, observed)));
    }
  }

  lemma SettleMaximal(config: StreamConfig, s: Stream, g: nat)
    requires Sound(config, s) && StreamMaximal(config, s) && g < |s.tasks|
    ensures StreamMaximal(config, Settle(s, g))
  {
    hide Sound, StreamMaximal, TaskMaximal, Settle, SettledTask, SettledLedgers;
    if s.tasks[g].phase.Settling? {
      SettlingIs(config, s, g);
      SettleIs(s, g);
      LedgersMoved(s, s.tasks[g]);
      TaskOf(config, s, g);
      SettledMaximal(config, s.plans, s.tasks[g]);
      OneMaximal(config, s, Settle(s, g), g);
    } else {
      SettleIdle(s, g);
    }
  }

  lemma SettlingIs(config: StreamConfig, s: Stream, g: nat)
    requires Sound(config, s) && g < |s.tasks| && s.tasks[g].phase.Settling?
    ensures var task := s.tasks[g];
            task.waves && |task.phase.observed| > 0 && task.start + task.offset + |task.phase.observed| <= |s.plans|
  {
    hide Sound, Split, GoodWave, CalledOff, IdentifiedBy, Marks, WholeWaves, HistoryBelow;
    SoundTask(config, s, g);
  }

  lemma HandBackMaximal(config: StreamConfig, s: Stream, g: nat)
    requires StreamMaximal(config, s) && g < |s.tasks|
    ensures StreamMaximal(config, HandBack(s, g))
  {
    hide StreamMaximal;
    var t := HandBack(s, g);
    if t != s {
      BatchKept(config, s, t, g, s.tasks[g].(phase := Returned));
    }
  }

  lemma StepMaximal(config: StreamConfig, s: Stream, event: Event)
    requires Sound(config, s) && StreamMaximal(config, s) && !event.Submission?
    ensures StreamMaximal(config, Step(config, s, event))
  {
    hide Sound, StreamMaximal, Enter, Choose, Reserve, Admitted, Start, Grant, Finish, Gathered, Settle, HandBack, AllReturned;
    hide Attempt, Notified;
    var t := Step(config, s, event);
    match event
    case Submission(_, _) =>
    case Entering(g) => if g < |s.tasks| { EnterMaximal(config, s, g); }
    case LoopHead(g) => if g < |s.tasks| { ChooseMaximal(config, s, g); }
    case Reserved(g) =>
      if g < |s.tasks| && s.tasks[g].phase.Reserving? {
        ReserveMaximal(config, s, g);
        AttemptMaximal(config, s, OfWave(g), Reserve(config, s, g));
      }
    case HookReturned(g, ok) => if g < |s.tasks| { AdmittedMaximal(config, s, g, ok); }
    case Started(g, k) => StartMaximal(config, s, g, k);
    case Granted(g, k) =>
      if At(s.tasks, g, k, Room) {
        GrantMaximal(config, s, g, k);
        AttemptMaximal(config, s, OfPlan(g, k), Grant(config, s, g, k));
      }
    case Finished(g, k, outcome) =>
      FinishMaximal(config, s, g, k, outcome);
      AttemptMaximal(config, s, OfPlan(g, k), Finish(s, g, k, outcome));
    case BatchEnded(g, uncertain) => if g < |s.tasks| { GatheredMaximal(config, s, g, uncertain); }
    case Settled(g) =>
      if g < |s.tasks| {
        SettleMaximal(config, s, g);
        AttemptMaximal(config, s, OfWave(g), Settle(s, g));
      }
    case Handed(g) => if g < |s.tasks| { HandBackMaximal(config, s, g); }
    case Cancellation => SameMaximal(config, s, t);
    case Pausing => SameMaximal(config, s, t);
    case Resuming => SameMaximal(config, s, t);
    case Closing => SameMaximal(config, s, t);
  }

  lemma AttemptMaximal(config: StreamConfig, s: Stream, waiter: Waiter, t: Stream)
    requires StreamMaximal(config, s) && StreamMaximal(config, t)
    ensures StreamMaximal(config, Attempt(s, waiter, t)) && StreamMaximal(config, Notified(s, t))
  {
    hide TaskMaximal;
  }

  lemma MaximalOnPrefix(config: StreamConfig, plans: seq<Plan>, more: seq<Plan>, stop: nat, low: nat, high: nat)
    requires Maximal(config, plans, stop, low, high)
    ensures Maximal(config, plans + more, stop, low, high)
  {
    if high < |plans| {
      CreditRangeOnPrefix(map[], plans, more, low, high + 1);
    }
  }

  lemma TaskOnPrefix(config: StreamConfig, plans: seq<Plan>, more: seq<Plan>, task: Task)
    requires TaskMaximal(config, plans, task)
    ensures TaskMaximal(config, plans + more, task)
  {
    hide Maximal;
    forall w | 0 <= w < |task.history|
      ensures Maximal(config, plans + more, task.stop, task.history[w].low, task.history[w].high)
    {
      MaximalOnPrefix(config, plans, more, task.stop, task.history[w].low, task.history[w].high);
    }
    if task.waves && BatchSize(task) > 0 {
      MaximalOnPrefix(config, plans, more, task.stop, task.start + task.offset, task.start + task.offset + BatchSize(task));
    }
  }

  lemma NewTaskMaximal(config: StreamConfig, plans: seq<Plan>, task: Task)
    requires task.phase == Queued && task.history == []
    ensures TaskMaximal(config, plans, task)
  {
  }

  lemma SubmitMaximal(config: StreamConfig, s: Stream, plans: seq<Plan>, sequence: int)
    requires StreamMaximal(config, s)
    ensures StreamMaximal(config, Submit(config, s, plans, sequence))
  {
    hide TaskMaximal, CheckSubmission, OwnersAfter;
    var t := Submit(config, s, plans, sequence);
    if CheckSubmission(config, s, plans, sequence) == None {
      forall g | 0 <= g < |t.tasks| ensures TaskMaximal(config, t.plans, t.tasks[g]) {
        if g < |s.tasks| {
          TaskOnPrefix(config, s.plans, plans, s.tasks[g]);
        } else {
          NewTaskMaximal(config, t.plans, t.tasks[g]);
        }
      }
    }
  }

  lemma {:induction false} ExecuteMaximal(config: StreamConfig, events: seq<Event>)
    requires config.Valid() && GoodEvents(events)
    ensures StreamMaximal(config, Execute(config, events))
  {
    hide Sound, Step, TaskMaximal, GoodEvent;
    if events != [] {
      hide StreamMaximal;
      var front, last := events[..|events| - 1], events[|events| - 1];
      var s := Execute(config, front);
      ExecuteMaximal(config, front);
      ExecuteSound(config, front);
      if last.Submission? {
        SubmitMaximal(config, s, last.plans, last.sequence);
        R.SubmissionTells(config, s, last, map[]);
      } else {
        StepMaximal(config, s, last);
      }
    }
  }

  /** Every settled wave is as long as it can be: it ends its group, has a plan for every worker, or has no room on empty
      executors for the next plan of the group. */
  lemma WavesAreMaximal(config: StreamConfig, events: seq<Event>, g: nat, w: nat)
    requires config.Valid() && GoodEvents(events)
    requires g < |Execute(config, events).tasks| && w < |Execute(config, events).tasks[g].history|
    ensures var s := Execute(config, events);
            var wave := s.tasks[g].history[w];
            || wave.high == s.tasks[g].stop || wave.high - wave.low == config.limits.maxWorkers
            || (wave.high < |s.plans| && !RangeFits(map[], config.limits.capacities, s.plans, wave.low, wave.high + 1))
  {
    hide Execute, RangeFits, Sound;
    ExecuteMaximal(config, events);
    assert TaskMaximal(config, Execute(config, events).plans, Execute(config, events).tasks[g]);
  }

  // ----- no episode starts in a cancelled stream

  /** Whoever runs was running. */
  ghost predicate NobodyStarts(tasks: seq<Task>, next: seq<Task>) {
    forall g: nat, k: nat :: At(next, g, k, Working) ==> At(tasks, g, k, Working)
  }

  lemma SameTasks(tasks: seq<Task>)
    ensures NobodyStarts(tasks, tasks)
  {
  }

  lemma NewPhase(tasks: seq<Task>, g: nat, task: Task)
    requires g < |tasks|
    requires task.phase.Collecting? ==> forall k :: 0 <= k < |task.phase.members| ==> !task.phase.members[k].Working?
    ensures NobodyStarts(tasks, tasks[g := task])
  {
  }

  lemma NewMember(tasks: seq<Task>, g: nat, k: nat, member: Member)
    requires g < |tasks| && tasks[g].phase.Collecting? && k < |tasks[g].phase.members| && !member.Working?
    ensures NobodyStarts(tasks, tasks[g := tasks[g].(phase := Collecting(tasks[g].phase.members[k := member]))])
  {
  }

  lemma PutTasks(s: Stream, g: nat, task: Task)
    requires g < |s.tasks|
    ensures Put(s, g, task).tasks == s.tasks[g := task]
  {
  }

  lemma PutMemberStarts(s: Stream, g: nat, k: nat, member: Member)
    requires g < |s.tasks| && s.tasks[g].phase.Collecting? && k < |s.tasks[g].phase.members| && !member.Working?
    ensures NobodyStarts(s.tasks, PutMember(s, g, k, member).tasks)
  {
    hide NobodyStarts;
    NewMember(s.tasks, g, k, member);
  }

  lemma EnterStarts(config: StreamConfig, s: Stream, g: nat)
    requires g < |s.tasks|
    ensures NobodyStarts(s.tasks, Enter(config, s, g).tasks)
  {
    hide NobodyStarts, Enter;
    SameTasks(s.tasks);
    EnterIs(config, s, g);
    var task := s.tasks[g];
    if Enter(config, s, g) != s {
      NewPhase(s.tasks, g, task.(phase := if task.waves then Choosing else Collecting(AllWaiting(task.stop - task.start))));
    }
  }

  lemma ChooseStarts(config: StreamConfig, s: Stream, g: nat)
    requires g < |s.tasks|
    ensures NobodyStarts(s.tasks, Choose(config, s, g).tasks)
  {
    hide NobodyStarts, Chosen;
    SameTasks(s.tasks);
    var task := s.tasks[g];
    if task.phase == Choosing && task.start + task.offset <= task.stop <= |s.plans| {
      ChosenPhase(config, s.plans, s.cancelled, task);
      NewPhase(s.tasks, g, Chosen(config, s.plans, s.cancelled, task));
    }
  }

  lemma ChosenPhase(config: StreamConfig, plans: seq<Plan>, cancelled: bool, task: Task)
    requires task.start + task.offset <= task.stop <= |plans|
    ensures !Chosen(config, plans, cancelled, task).phase.Collecting?
  {
    hide WaveSize;
  }

  lemma ReserveStarts(config: StreamConfig, s: Stream, g: nat)
    requires g < |s.tasks|
    ensures NobodyStarts(s.tasks, Reserve(config, s, g).tasks)
  {
    hide NobodyStarts, RangeFits, CreditRange, Range;
    SameTasks(s.tasks);
    var task := s.tasks[g];
    if task.phase.Reserving? {
      NewPhase(s.tasks, g, task.(phase := Choosing));
      NewPhase(s.tasks, g, task.(phase := Opening(task.phase.size)));
    }
  }

  lemma AdmittedStarts(s: Stream, g: nat, ok: bool)
    requires g < |s.tasks|
    ensures NobodyStarts(s.tasks, Admitted(s, g, ok).tasks)
  {
    hide NobodyStarts;
    SameTasks(s.tasks);
    var task := s.tasks[g];
    if task.phase.Opening? {
      NewPhase(s.tasks, g, task.(phase := Collecting(AllWaiting(task.phase.size))));
      NewPhase(s.tasks, g, task.(phase := Settling(Repeat(UNRESOLVED, task.phase.size), true)));
    }
  }

  /** In a cancelled stream a plan that gets a worker, or has one, gives up. */
  lemma MembersGiveUp(config: StreamConfig, s: Stream, g: nat, k: nat)
    requires s.cancelled
    ensures NobodyStarts(s.tasks, Start(config, s, g, k).tasks) && NobodyStarts(s.tasks, Grant(config, s, g, k).tasks)
  {
    hide NobodyStarts, PutMember, Fits;
    SameTasks(s.tasks);
    if g < |s.tasks| && s.tasks[g].phase.Collecting? && k < |s.tasks[g].phase.members| {
      PutMemberStarts(s, g, k, Room);
      PutMemberStarts(s, g, k, Done(NOT_ADMITTED));
    }
  }

  lemma FinishStarts(s: Stream, g: nat, k: nat, outcome: Outcome)
    ensures NobodyStarts(s.tasks, Finish(s, g, k, outcome).tasks)
  {
    hide NobodyStarts, PutMember, Outcome.Safe, Credit, Debit;
    SameTasks(s.tasks);
    if g < |s.tasks| && s.tasks[g].phase.Collecting? && k < |s.tasks[g].phase.members| {
      PutMemberStarts(s, g, k, Done(outcome));
    }
  }

  lemma GatheredStarts(s: Stream, g: nat, uncertain: bool)
    requires g < |s.tasks|
    ensures NobodyStarts(s.tasks, Gathered(s, g, uncertain).tasks)
  {
    hide NobodyStarts, AllDone, Identified;
    SameTasks(s.tasks);
    var task, t := s.tasks[g], Gathered(s, g, uncertain);
    if t != s {
      NewPhase(s.tasks, g, t.tasks[g]);
    }
  }

  lemma SettleStarts(config: StreamConfig, s: Stream, g: nat)
    requires Sound(config, s) && g < |s.tasks|
    ensures NobodyStarts(s.tasks, Settle(s, g).tasks)
  {
    hide Sound, NobodyStarts, Settle, SettledTask, SettledLedgers;
    SameTasks(s.tasks);
    if s.tasks[g].phase.Settling? {
      SettlingIs(config, s, g);
      SettleIs(s, g);
      LedgersMoved(s, s.tasks[g]);
      SettledPhase(s.plans, s.tasks[g]);
      NewPhase(s.tasks, g, SettledTask(s.plans, s.tasks[g]));
    } else {
      SettleIdle(s, g);
    }
  }

  lemma SettledPhase(plans: seq<Plan>, task: Task)
    requires task.phase.Settling? && task.start + task.offset + |task.phase.observed| <= |plans|
    ensures SettledTask(plans, task).phase == Choosing
  {
    hide Identified, Doubted, ProvenSafe;
  }

  lemma HandBackStarts(s: Stream, g: nat)
    requires g < |s.tasks|
    ensures NobodyStarts(s.tasks, HandBack(s, g).tasks)
  {
    hide NobodyStarts;
    SameTasks(s.tasks);
    NewPhase(s.tasks, g, s.tasks[g].(phase := Returned));
  }

  lemma SubmitStarts(config: StreamConfig, s: Stream, plans: seq<Plan>, sequence: int)
    ensures NobodyStarts(s.tasks, Submit(config, s, plans, sequence).tasks)
  {
    hide CheckSubmission, OwnersAfter;
  }

  lemma StepStartsNothing(config: StreamConfig, s: Stream, event: Event)
    requires Sound(config, s) && s.cancelled
    ensures NobodyStarts(s.tasks, Step(config, s, event).tasks)
  {
    hide Sound, NobodyStarts, Submit, Enter, Choose, Reserve, Admitted, Start, Grant, Finish, Gathered, Settle, HandBack, AllReturned;
    SameTasks(s.tasks);
    match event
    case Submission(plans, sequence) => SubmitStarts(config, s, plans, sequence);
    case Entering(g) => if g < |s.tasks| { EnterStarts(config, s, g); }
    case LoopHead(g) => if g < |s.tasks| { ChooseStarts(config, s, g); }
    case Reserved(g) => if g < |s.tasks| { ReserveStarts(config, s, g); }
    case HookReturned(g, ok) => if g < |s.tasks| { AdmittedStarts(s, g, ok); }
    case Started(g, k) => MembersGiveUp(config, s, g, k);
    case Granted(g, k) => MembersGiveUp(config, s, g, k);
    case Finished(g, k, outcome) => FinishStarts(s, g, k, outcome);
    case BatchEnded(g, uncertain) => if g < |s.tasks| { GatheredStarts(s, g, uncertain); }
    case Settled(g) => if g < |s.tasks| { SettleStarts(config, s, g); }
    case Handed(g) => if g < |s.tasks| { HandBackStarts(s, g); }
    case _ =>
  }

  /** From a cancellation on no episode starts: every one that runs was running then. */
  lemma {:induction false} CancelledStartsNothing(config: StreamConfig, events: seq<Event>, more: seq<Event>)
    requires config.Valid() && GoodEvents(events + more) && Execute(config, events).cancelled
    ensures NobodyStarts(Execute(config, events).tasks, Execute(config, events + more).tasks)
    ensures Execute(config, events + more).cancelled
    decreases |more|
  {
    hide Execute, Sound, Step, GoodEvent, NobodyStarts;
    if more == [] {
      assert events + more == events;
      SameTasks(Execute(config, events).tasks);
    } else {
      var front, last := more[..|more| - 1], more[|more| - 1];
      assert events + more == (events + front) + [last];
      assert forall k :: 0 <= k < |events + front| ==> (events + front)[k] == (events + more)[k];
      CancelledStartsNothing(config, events, front);
      var s := Execute(config, events + front);
      ExecuteSound(config, events + front);
      StepStartsNothing(config, s, last);
      Appended(config, events + front, last);
      R.StepCancels(config, s, last);
      Onwards(Execute(config, events).tasks, s.tasks, Step(config, s, last).tasks);
    }
  }

  lemma Appended(config: StreamConfig, events: seq<Event>, event: Event)
    ensures Execute(config, events + [event]) == Step(config, Execute(config, events), event)
  {
    assert (events + [event])[..|events|] == events;
  }

  lemma Onwards(tasks: seq<Task>, next: seq<Task>, last: seq<Task>)
    requires NobodyStarts(tasks, next) && NobodyStarts(next, last)
    ensures NobodyStarts(tasks, last)
  {
    hide At;
  }
}
