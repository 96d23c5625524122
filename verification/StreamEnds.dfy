/** How far a stream's groups are from being handed back: every step of a task brings it nearer. */
module StreamEnds {
  import opened Wrappers
  import opened Resources
  import opened CoordinatorSpec
  import opened StreamSpec
  import opened StreamTheorems
  import opened StreamWaiters
  import opened StreamProgress
  import opened StreamGroups

  // ----- effort

  function MemberEffort(member: Member): nat {
    match member
    case Waiting => 3
    case Room => 2
    case Working => 1
    case Done(_) => 0
  }

  function MembersEffort(members: seq<Member>): nat {
    if members == [] then 0 else MembersEffort(members[..|members| - 1]) + MemberEffort(members[|members| - 1])
  }

  /** The plans of the task that no batch has dealt with. */
  function Rest(task: Task): nat {
    if task.start + task.offset <= task.stop then task.stop - task.start - task.offset else 0
  }

  function Beyond(task: Task, size: nat): nat {
    if size <= Rest(task) then Rest(task) - size else 0
  }

  /** A bound on the steps a task still has before it. In a cancelled stream it only comes to the head of its loop to
      leave it. */
  function Effort(task: Task, cancelled: bool): nat {
    match task.phase
    case Queued => 20 * Rest(task) + 20
    case Choosing => 20 * Rest(task) + if cancelled then 2 else 4
    case Reserving(size) => 20 * Rest(task) + 3
    case Opening(size) => 20 * Beyond(task, size) + 4 * size + 12
    case Collecting(members) => 20 * Beyond(task, |members|) + MembersEffort(members) + 11
    case Settling(observed, _) => 20 * Beyond(task, |observed|) + 6
    case Complete => 1
    case Returned => 0
  }

  function Total(tasks: seq<Task>, cancelled: bool): nat {
    if tasks == [] then 0 else Total(tasks[..|tasks| - 1], cancelled) + Effort(tasks[|tasks| - 1], cancelled)
  }

  lemma {:induction false} WaitingEffort(members: seq<Member>)
    requires forall k :: 0 <= k < |members| ==> members[k] == Waiting
    ensures MembersEffort(members) == 3 * |members|
  {
    if members != [] {
      WaitingEffort(members[..|members| - 1]);
    }
  }

  lemma {:induction false} PutEffort(members: seq<Member>, k: nat, member: Member)
    requires k < |members|
    ensures MembersEffort(members[k := member]) == MembersEffort(members) - MemberEffort(members[k]) + MemberEffort(member)
  {
    var last := |members| - 1;
    if k < last {
      PutEffort(members[..last], k, member);
      assert members[k := member][..last] == members[..last][k := member];
    } else {
      assert members[k := member][..last] == members[..last];
    }
  }

  lemma {:induction false} LessIfCancelled(tasks: seq<Task>, cancelled: bool, now: bool)
    requires cancelled ==> now
    ensures Total(tasks, now) <= Total(tasks, cancelled)
  {
    if tasks != [] {
      LessIfCancelled(tasks[..|tasks| - 1], cancelled, now);
    }
  }

  lemma {:induction false} PutTotal(tasks: seq<Task>, g: nat, task: Task, cancelled: bool)
    requires g < |tasks|
    ensures Total(tasks[g := task], cancelled) == Total(tasks, cancelled) - Effort(tasks[g], cancelled) + Effort(task, cancelled)
  {
    hide Effort;
    var last := |tasks| - 1;
    if g < last {
      PutTotal(tasks[..last], g, task, cancelled);
      assert tasks[g := task][..last] == tasks[..last][g := task];
    } else {
      assert tasks[g := task][..last] == tasks[..last];
    }
  }

  lemma MoreTotal(tasks: seq<Task>, task: Task, cancelled: bool)
    ensures Total(tasks + [task], cancelled) == Total(tasks, cancelled) + Effort(task, cancelled)
  {
    assert (tasks + [task])[..|tasks|] == tasks;
  }

  // ----- each step

  /** Only task g changes, and it has come nearer its end. */
  ghost predicate Nearer(s: Stream, t: Stream, g: nat) {
    && (s.cancelled ==> t.cancelled)
    && (t.tasks == s.tasks
        || (g < |s.tasks| == |t.tasks| && t.tasks == s.tasks[g := t.tasks[g]]
            && Effort(t.tasks[g], t.cancelled) < Effort(s.tasks[g], s.cancelled)))
  }

  ghost predicate Shaped(config: StreamConfig, s: Stream, g: nat) {
    g < |s.tasks| && Shape(config, s.plans, s.cancelled, s.tasks[g])
  }

  /** What of a task's shape matters here. */
  lemma InRange(config: StreamConfig, s: Stream, g: nat)
    requires Shaped(config, s, g)
    ensures var task := s.tasks[g];
            && task.start + task.offset + BatchSize(task) <= task.stop <= |s.plans| && task.start < task.stop
            && (!task.waves && task.phase.Collecting? ==> |task.phase.members| == Rest(task))
            && (task.phase.Reserving? || task.phase.Opening? || task.phase.Settling? ==> BatchSize(task) > 0)
            && (task.phase.Queued? ==> task.offset == 0)
            && (task.phase.Reserving? || task.phase.Opening? || task.phase.Settling? || task.phase.Choosing? ==> task.waves)
  {
    hide Split, GoodWave, CalledOff, IdentifiedBy;
  }

  lemma EnterNearer(config: StreamConfig, s: Stream, g: nat)
    requires Shaped(config, s, g)
    ensures Nearer(s, Enter(config, s, g), g)
  {
    hide Shape;
    InRange(config, s, g);
    var task := s.tasks[g];
    WaitingEffort(AllWaiting(task.stop - task.start));
  }

  lemma ChooseNearer(config: StreamConfig, s: Stream, g: nat)
    requires Shaped(config, s, g)
    ensures Nearer(s, Choose(config, s, g), g)
  {
    hide Shape, WaveSize, MembersEffort;
    InRange(config, s, g);
  }

  lemma ReserveNearer(config: StreamConfig, s: Stream, g: nat)
    requires Shaped(config, s, g)
    ensures Nearer(s, Reserve(config, s, g), g)
  {
    hide Shape, RangeFits, CreditRange, Range, MembersEffort;
    InRange(config, s, g);
  }

  /** A wave's admission brings its task nearer, whether it succeeds or fails. */
  lemma OpenedEffort(task: Task, cancelled: bool, now: bool)
    requires task.phase.Opening? && 0 < task.phase.size
    ensures Effort(task.(phase := Collecting(AllWaiting(task.phase.size))), now) < Effort(task, cancelled)
    ensures Effort(task.(phase := Settling(Repeat(UNRESOLVED, task.phase.size), true)), now) < Effort(task, cancelled)
  {
    hide MembersEffort;
    WaitingEffort(AllWaiting(task.phase.size));
  }

  lemma AdmittedNearer(config: StreamConfig, s: Stream, g: nat, ok: bool)
    requires Shaped(config, s, g)
    ensures Nearer(s, Admitted(s, g, ok), g)
  {
    hide Shape, Effort;
    InRange(config, s, g);
    if s.tasks[g].phase.Opening? {
      OpenedEffort(s.tasks[g], s.cancelled, Admitted(s, g, ok).cancelled);
    }
  }

  /** A member that comes nearer its end brings its task nearer. */
  lemma MemberNearer(s: Stream, g: nat, k: nat, member: Member, t: Stream)
    requires g < |s.tasks| && s.tasks[g].phase.Collecting? && k < |s.tasks[g].phase.members|
    requires MemberEffort(member) < MemberEffort(s.tasks[g].phase.members[k])
    requires t.tasks == PutMember(s, g, k, member).tasks && (s.cancelled ==> t.cancelled)
    ensures Nearer(s, t, g)
  {
    hide MembersEffort;
    PutEffort(s.tasks[g].phase.members, k, member);
  }

  lemma PutMemberFlag(s: Stream, g: nat, k: nat, member: Member)
    requires g < |s.tasks| && s.tasks[g].phase.Collecting? && k < |s.tasks[g].phase.members|
    ensures PutMember(s, g, k, member).cancelled == s.cancelled
  {
  }

  lemma StartNearer(config: StreamConfig, s: Stream, g: nat, k: nat)
    ensures Nearer(s, Start(config, s, g, k), g)
  {
    hide Nearer, PutMember;
    if At(s.tasks, g, k, Waiting) {
      var t := Start(config, s, g, k);
      PutMemberFlag(s, g, k, Room);
      PutMemberFlag(s, g, k, Done(NOT_ADMITTED));
      PutMemberFlag(s, g, k, Working);
      if t.tasks != s.tasks {
        MemberNearer(s, g, k, if !s.tasks[g].waves then Room else if s.cancelled then Done(NOT_ADMITTED) else Working, t);
      } else {
        SameNearer(s, t, g);
      }
    } else {
      SameNearer(s, s, g);
    }
  }

  lemma SameNearer(s: Stream, t: Stream, g: nat)
    requires t.tasks == s.tasks && (s.cancelled ==> t.cancelled)
    ensures Nearer(s, t, g)
  {
  }

  lemma GrantNearer(config: StreamConfig, s: Stream, g: nat, k: nat)
    ensures Nearer(s, Grant(config, s, g, k), g)
  {
    hide Nearer, PutMember, Fits;
    var t := Grant(config, s, g, k);
    if At(s.tasks, g, k, Room) {
      PutMemberFlag(s, g, k, Done(NOT_ADMITTED));
      PutMemberFlag(s, g, k, Working);
    }
    if At(s.tasks, g, k, Room) && t.tasks != s.tasks {
      MemberNearer(s, g, k, if s.cancelled then Done(NOT_ADMITTED) else Working, t);
    } else {
      SameNearer(s, t, g);
    }
  }

  lemma FinishNearer(s: Stream, g: nat, k: nat, outcome: Outcome)
    ensures Nearer(s, Finish(s, g, k, outcome), g)
  {
    hide Nearer, PutMember, Outcome.Safe;
    var t := Finish(s, g, k, outcome);
    if At(s.tasks, g, k, Working) {
      PutMemberFlag(s, g, k, Done(outcome));
    }
    if At(s.tasks, g, k, Working) && t.tasks != s.tasks {
      MemberNearer(s, g, k, Done(outcome), t);
    } else {
      SameNearer(s, t, g);
    }
  }

  lemma GatheredEffort(task: Task, cancelled: bool, observed: seq<Outcome>, uncertain: bool)
    requires task.phase.Collecting? && |observed| == |task.phase.members|
    ensures Effort(task.(phase := Settling(observed, uncertain)), cancelled) < Effort(task, cancelled)
  {
    hide MembersEffort;
  }

  lemma CompleteEffort(task: Task, cancelled: bool)
    requires task.phase == Complete
    ensures Effort(task, cancelled) == 1
  {
  }

  lemma CollectingEffort(task: Task, cancelled: bool)
    requires task.phase.Collecting?
    ensures Effort(task, cancelled) > 1
  {
  }

  lemma GatheredNearer(config: StreamConfig, s: Stream, g: nat, uncertain: bool)
    requires Shaped(config, s, g)
    ensures Nearer(s, Gathered(s, g, uncertain), g)
  {
    hide Shape, Identified, Effort, AllDone;
    InRange(config, s, g);
    var task := s.tasks[g];
    if task.phase.Collecting? && AllDone(task.phase.members) {
      GatheredEffort(task, s.cancelled, Outcomes(task.phase.members), uncertain);
      CollectingEffort(task, s.cancelled);
      var t := Gathered(s, g, uncertain);
      if t.tasks[g].phase == Complete {
        CompleteEffort(t.tasks[g], s.cancelled);
      }
    }
  }

  lemma SettledEffort(task: Task, next: Task, cancelled: bool, now: bool)
    requires task.phase.Settling? && 0 < |task.phase.observed| <= Rest(task)
    requires next.phase == Choosing && next.start == task.start && next.stop == task.stop
    requires next.offset == task.offset + |task.phase.observed|
    ensures Effort(next, now) < Effort(task, cancelled)
  {
  }

  lemma SettleNearer(config: StreamConfig, s: Stream, g: nat)
    requires Shaped(config, s, g)
    ensures Nearer(s, Settle(s, g), g)
  {
    hide Shape, Identified, Doubted, ProvenSafe, CreditRange, DebitRange, Range, Effort;
    InRange(config, s, g);
    if s.tasks[g].phase.Settling? {
      SettledEffort(s.tasks[g], Settle(s, g).tasks[g], s.cancelled, Settle(s, g).cancelled);
    }
  }

  lemma HandBackNearer(s: Stream, g: nat)
    requires g < |s.tasks|
    ensures Nearer(s, HandBack(s, g), g)
  {
    hide MembersEffort, Rest;
  }

  /** Every step of a task that takes it on brings the stream nearer its end, and no other event takes it further away
      but a submission. */
  lemma StepNearer(config: StreamConfig, s: Stream, event: Event)
    requires Sound(config, s) && !event.Submission?
    ensures var t := Step(config, s, event);
            && (s.cancelled ==> t.cancelled)
            && Total(t.tasks, t.cancelled) <= Total(s.tasks, s.cancelled)
            && (Moves(config, s, event) ==> Total(t.tasks, t.cancelled) < Total(s.tasks, s.cancelled))
  {
    hide Sound, Step, Effort, Total, Nearer;
    var t := Step(config, s, event);
    var g := OneNearer(config, s, event);
    TotalNearer(s, t, g);
  }

  lemma TotalNearer(s: Stream, t: Stream, g: nat)
    requires Nearer(s, t, g)
    ensures s.cancelled ==> t.cancelled
    ensures Total(t.tasks, t.cancelled) <= Total(s.tasks, s.cancelled)
    ensures t.tasks != s.tasks ==> Total(t.tasks, t.cancelled) < Total(s.tasks, s.cancelled)
  {
    hide Effort;
    LessIfCancelled(s.tasks, s.cancelled, t.cancelled);
    if t.tasks != s.tasks {
      OneLess(s.tasks, g, t.tasks[g], s.cancelled, t.cancelled);
    }
  }

  lemma OneLess(tasks: seq<Task>, g: nat, task: Task, cancelled: bool, now: bool)
    requires g < |tasks| && (cancelled ==> now) && Effort(task, now) < Effort(tasks[g], cancelled)
    ensures Total(tasks[g := task], now) < Total(tasks, cancelled)
    decreases |tasks|
  {
    hide Effort;
    var last := |tasks| - 1;
    if g < last {
      OneLess(tasks[..last], g, task, cancelled, now);
      assert tasks[g := task][..last] == tasks[..last][g := task];
      LastLess(tasks[last], cancelled, now);
    } else {
      assert tasks[g := task][..last] == tasks[..last];
      LessIfCancelled(tasks[..last], cancelled, now);
    }
  }

  lemma LastLess(task: Task, cancelled: bool, now: bool)
    requires cancelled ==> now
    ensures Effort(task, now) <= Effort(task, cancelled)
  {
    hide MembersEffort, Rest, Beyond;
  }

  lemma ShapedTask(config: StreamConfig, s: Stream, g: nat)
    requires Sound(config, s) && g < |s.tasks|
    ensures Shaped(config, s, g)
  {
    hide Sound, Shape;
    SoundTask(config, s, g);
  }

  lemma AttemptNearer(s: Stream, waiter: Waiter, t: Stream, g: nat)
    requires Nearer(s, t, g)
    ensures Nearer(s, Attempt(s, waiter, t), g)
  {
    hide Effort;
  }

  lemma NotifiedNearer(s: Stream, t: Stream, g: nat)
    requires Nearer(s, t, g)
    ensures Nearer(s, Notified(s, t), g)
  {
    hide Effort;
  }

  lemma OneNearer(config: StreamConfig, s: Stream, event: Event) returns (h: nat)
    requires Sound(config, s) && !event.Submission?
    ensures Nearer(s, Step(config, s, event), h)
  {
    hide Sound, Nearer, Enter, Choose, Reserve, Admitted, Start, Grant, Finish, Gathered, Settle, HandBack, AllReturned, Attempt, Notified, Shaped;
    h := 0;
    SameNearer(s, s, 0);
    match event
    case Entering(g) => if g < |s.tasks| { h := g; ShapedTask(config, s, g); EnterNearer(config, s, g); }
    case LoopHead(g) => if g < |s.tasks| { h := g; ShapedTask(config, s, g); ChooseNearer(config, s, g); }
    case Reserved(g) =>
      if g < |s.tasks| && s.tasks[g].phase.Reserving? {
        h := g;
        ShapedTask(config, s, g);
        ReserveNearer(config, s, g);
        AttemptNearer(s, OfWave(g), Reserve(config, s, g), g);
      }
    case HookReturned(g, ok) => if g < |s.tasks| { h := g; ShapedTask(config, s, g); AdmittedNearer(config, s, g, ok); }
    case Started(g, k) => h := g; StartNearer(config, s, g, k);
    case Granted(g, k) =>
      if At(s.tasks, g, k, Room) {
        h := g;
        GrantNearer(config, s, g, k);
        AttemptNearer(s, OfPlan(g, k), Grant(config, s, g, k), g);
      }
    case Finished(g, k, outcome) => h := g; FinishNearer(s, g, k, outcome); NotifiedNearer(s, Finish(s, g, k, outcome), g);
    case BatchEnded(g, uncertain) => if g < |s.tasks| { h := g; ShapedTask(config, s, g); GatheredNearer(config, s, g, uncertain); }
    case Settled(g) =>
      if g < |s.tasks| { h := g; ShapedTask(config, s, g); SettleNearer(config, s, g); NotifiedNearer(s, Settle(s, g), g); }
    case Handed(g) => if g < |s.tasks| { h := g; HandBackNearer(s, g); }
    case Submission(_, _) =>
    case Cancellation => SameNearer(s, Step(config, s, event), h);
    case Pausing => SameNearer(s, Step(config, s, event), h);
    case Resuming => SameNearer(s, Step(config, s, event), h);
    case Closing => SameNearer(s, Step(config, s, event), h);
  }

  // ----- whole runs

  /** How many events took some task further. */
  ghost function Taken(config: StreamConfig, events: seq<Event>): nat {
    if events == [] then 0
    else
      var (front, last) := (events[..|events| - 1], events[|events| - 1]);
      Taken(config, front) + (if Moves(config, Execute(config, front), last) then 1 else 0)
  }

  lemma QueuedEffort(task: Task, cancelled: bool)
    requires task.phase == Queued && task.offset == 0 && task.start <= task.stop
    ensures Effort(task, cancelled) == 20 * (task.stop - task.start) + 20
  {
    hide MembersEffort;
  }

  lemma SubmitEffort(config: StreamConfig, s: Stream, plans: seq<Plan>, sequence: int)
    ensures var t := Submit(config, s, plans, sequence);
            && t.cancelled == s.cancelled
            && Total(t.tasks, t.cancelled) - Total(s.tasks, s.cancelled)
                 == 20 * (|t.plans| - |s.plans|) + 20 * (|t.tasks| - |s.tasks|)
  {
    hide CheckSubmission, OwnersAfter, Effort, Total;
    AcceptedIsSome(config, s, plans, sequence);
    if CheckSubmission(config, s, plans, sequence) == None {
      var task := Task(|s.plans|, |s.plans| + |plans|, config.InWaves(plans[0].group.benchmark), 0, Queued, [], []);
      MoreTotal(s.tasks, task, s.cancelled);
      QueuedEffort(task, s.cancelled);
    }
  }

  lemma AcceptedIsSome(config: StreamConfig, s: Stream, plans: seq<Plan>, sequence: int)
    ensures CheckSubmission(config, s, plans, sequence) == None ==> plans != []
  {
  }

  /** Over any run the tasks take at most twenty steps for each plan and twenty for each group: nobody runs for ever. */
  lemma {:induction false} StepsAreFew(config: StreamConfig, events: seq<Event>)
    requires config.Valid() && GoodEvents(events)
    ensures var s := Execute(config, events);
            Taken(config, events) + Total(s.tasks, s.cancelled) <= 20 * |s.plans| + 20 * |s.tasks|
  {
    hide Step, Sound, Total, Moves, GoodEvent;
    if events == [] {
      NothingYet(config);
    } else {
      var front, last := events[..|events| - 1], events[|events| - 1];
      var s := Execute(config, front);
      StepsAreFew(config, front);
      ExecuteSound(config, front);
      if last.Submission? {
        SubmissionStep(config, s, last);
        SubmitEffort(config, s, last.plans, last.sequence);
      } else {
        StepNearer(config, s, last);
        StepSameGroups(config, s, last);
      }
    }
  }

  lemma NothingYet(config: StreamConfig)
    ensures Total(Opened().tasks, false) == 0
  {
  }

  lemma SubmissionStep(config: StreamConfig, s: Stream, event: Event)
    requires event.Submission?
    ensures Step(config, s, event) == Submit(config, s, event.plans, event.sequence) && !Moves(config, s, event)
  {
    hide Submit;
  }

  ghost predicate Continues(config: StreamConfig, events: seq<Event>, more: seq<Event>) {
    && (forall k :: 0 <= k < |more| ==> OwnStep(more[k]))
    && (AllReturned(Execute(config, events + more)) || Stuck(config, Execute(config, events + more)))
  }

  lemma SomeLeft(s: Stream) returns (g: nat)
    requires !AllReturned(s)
    ensures g < |s.tasks| && s.tasks[g].phase != Returned
  {
    g :| 0 <= g < |s.tasks| && s.tasks[g].phase != Returned;
  }

  lemma RunNext(config: StreamConfig, events: seq<Event>, event: Event)
    ensures Execute(config, events + [event]) == Step(config, Execute(config, events), event)
  {
    assert (events + [event])[..|events|] == events;
  }

  /** From any state the tasks come by themselves, in as many steps as they have left, to where every group is handed
      back, or to the one deadlock there is. */
  lemma EndsOrSticks(config: StreamConfig, events: seq<Event>) returns (more: seq<Event>)
    requires config.Valid() && GoodEvents(events)
    ensures Continues(config, events, more)
    ensures |more| <= Total(Execute(config, events).tasks, Execute(config, events).cancelled)
    decreases Total(Execute(config, events).tasks, Execute(config, events).cancelled)
  {
    hide Execute, Step, Sound, Drowsy, Total, Moves, Stuck, GoodEvent, AllReturned;
    var s := Execute(config, events);
    if AllReturned(s) || Stuck(config, s) {
      more := [];
      assert events + more == events;
    } else {
      var g := SomeLeft(s);
      ExecuteSound(config, events);
      ExecuteDrowsy(config, events);
      var event := MovesUnlessStuck(config, s, g);
      OwnIsGood(config, s, event);
      RunNext(config, events, event);
      StepNearer(config, s, event);
      var rest := EndsOrSticks(config, events + [event]);
      more := [event] + rest;
      assert events + more == events + [event] + rest;
    }
  }

  lemma OwnIsGood(config: StreamConfig, s: Stream, event: Event)
    requires Moves(config, s, event)
    ensures OwnStep(event) && GoodEvent(event) && !event.Submission?
  {
    hide Step;
  }
}
