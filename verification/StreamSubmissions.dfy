/** Which groups an open stream takes on, and what they have in common. */
module StreamSubmissions {
  import opened Wrappers
  import opened Resources
  import opened CoordinatorSpec
  import opened StreamSpec
  import opened StreamTheorems
  import O = StreamOwners

  /** The sequence numbers of the groups taken on so far. */
  function Sequences(config: StreamConfig, events: seq<Event>): seq<int> {
    if events == [] then []
    else
      var (front, last) := (events[..|events| - 1], events[|events| - 1]);
      var before := Sequences(config, front);
      if last.Submission? && |Execute(config, events).tasks| > |Execute(config, front).tasks| then before + [last.sequence]
      else before
  }

  // ----- what the groups have in common

  /** One group's plans: at least one, each with an identity of its own, of one semantic group. */
  ghost predicate OneGroup(plans: seq<Plan>, start: nat, stop: nat) {
    && start < stop <= |plans|
    && (forall i, j :: start <= i < j < stop ==> plans[i].identity != plans[j].identity)
    && (forall i :: start <= i < stop ==> plans[i].group == plans[start].group)
  }

  ghost predicate AllGroups(s: Stream) {
    forall g :: 0 <= g < |s.tasks| ==> OneGroup(s.plans, s.tasks[g].start, s.tasks[g].stop)
  }

  ghost predicate OneRun(s: Stream) {
    && (s.runId.None? <==> s.plans == [])
    && (forall i :: 0 <= i < |s.plans| ==> s.runId == Some(s.plans[i].runId))
  }

  ghost predicate InSequence(s: Stream, sequences: seq<int>) {
    && |sequences| == |s.tasks|
    && s.sequence == (if sequences == [] then -1 else sequences[|sequences| - 1])
    && (forall g :: 0 <= g < |sequences| ==> 0 <= sequences[g] <= s.sequence)
    && (forall g, h :: 0 <= g < h < |sequences| ==> sequences[g] < sequences[h])
  }

  lemma NewGroup(plans: seq<Plan>, more: seq<Plan>)
    requires more != []
    requires !(exists i, j :: 0 <= i < j < |more| && more[i].identity == more[j].identity)
    requires !(exists i :: 0 <= i < |more| && more[i].group != more[0].group)
    ensures OneGroup(plans + more, |plans|, |plans| + |more|)
  {
    var all := plans + more;
    forall i, j | |plans| <= i < j < |all| ensures all[i].identity != all[j].identity {
      assert all[i] == more[i - |plans|] && all[j] == more[j - |plans|];
    }
    forall i | |plans| <= i < |all| ensures all[i].group == all[|plans|].group {
      assert all[i] == more[i - |plans|];
    }
  }

  lemma OldGroup(plans: seq<Plan>, more: seq<Plan>, start: nat, stop: nat)
    requires OneGroup(plans, start, stop)
    ensures OneGroup(plans + more, start, stop)
  {
  }

  lemma SubmitGroups(config: StreamConfig, s: Stream, plans: seq<Plan>, sequence: int, sequences: seq<int>)
    requires AllGroups(s) && OneRun(s) && InSequence(s, sequences)
    ensures var t := Submit(config, s, plans, sequence);
            AllGroups(t) && OneRun(t) && InSequence(t, if |t.tasks| > |s.tasks| then sequences + [sequence] else sequences)
  {
    hide OneGroup, OwnersAfter, Refused, StageTaken, Claims;
    var t := Submit(config, s, plans, sequence);
    if CheckSubmission(config, s, plans, sequence) == None {
      NewGroup(s.plans, plans);
      forall g | 0 <= g < |t.tasks| ensures OneGroup(t.plans, t.tasks[g].start, t.tasks[g].stop) {
        if g < |s.tasks| {
          OldGroup(s.plans, plans, s.tasks[g].start, s.tasks[g].stop);
        }
      }
    }
  }

  /** What steps other than submissions leave alone. */
  ghost predicate SameAdmission(s: Stream, t: Stream) {
    && t.plans == s.plans && t.runId == s.runId && t.sequence == s.sequence && |t.tasks| == |s.tasks|
    && forall g :: 0 <= g < |s.tasks| ==> t.tasks[g].start == s.tasks[g].start && t.tasks[g].stop == s.tasks[g].stop
  }

  lemma SameGroupsKept(s: Stream, t: Stream, sequences: seq<int>)
    requires SameAdmission(s, t)
    ensures AllGroups(s) ==> AllGroups(t)
    ensures OneRun(s) ==> OneRun(t)
    ensures InSequence(s, sequences) ==> InSequence(t, sequences)
  {
    hide OneGroup;
  }

  lemma PutKeeps(s: Stream, g: nat, task: Task)
    requires g < |s.tasks| && task.start == s.tasks[g].start && task.stop == s.tasks[g].stop
    ensures SameAdmission(s, Put(s, g, task))
  {
  }

  lemma EnterKeeps(config: StreamConfig, s: Stream, g: nat)
    requires g < |s.tasks|
    ensures SameAdmission(s, Enter(config, s, g))
  {
    hide Enter;
    EnterIs(config, s, g);
  }

  lemma ChooseKeeps(config: StreamConfig, s: Stream, g: nat)
    requires g < |s.tasks|
    ensures SameAdmission(s, Choose(config, s, g))
  {
    hide Chosen;
    var task := s.tasks[g];
    if task.start + task.offset <= task.stop <= |s.plans| {
      ChosenKeeps(config, s.plans, s.cancelled, task);
    }
  }

  lemma ChosenKeeps(config: StreamConfig, plans: seq<Plan>, cancelled: bool, task: Task)
    requires task.start + task.offset <= task.stop <= |plans|
    ensures var next := Chosen(config, plans, cancelled, task); next.start == task.start && next.stop == task.stop
  {
    hide WaveSize;
  }

  lemma ReserveKeeps(config: StreamConfig, s: Stream, g: nat)
    requires g < |s.tasks|
    ensures SameAdmission(s, Reserve(config, s, g))
  {
    hide SameAdmission, Put, RangeFits, CreditRange, Range;
    SameItself(s);
    var task, t := s.tasks[g], Reserve(config, s, g);
    if task.phase.Reserving? && t != s {
      var next := task.(phase := if s.cancelled then Choosing else Opening(task.phase.size));
      PutKeeps(s, g, next);
      OnlyAdmissionMatters(s, Put(s, g, next), t);
    }
  }

  lemma AdmittedKeeps(s: Stream, g: nat, ok: bool)
    requires g < |s.tasks|
    ensures SameAdmission(s, Admitted(s, g, ok))
  {
    hide SameAdmission, Put;
    SameItself(s);
    var task, t := s.tasks[g], Admitted(s, g, ok);
    if task.phase.Opening? {
      var next := task.(phase := if ok then Collecting(AllWaiting(task.phase.size))
                                 else Settling(Repeat(UNRESOLVED, task.phase.size), true));
      PutKeeps(s, g, next);
      OnlyAdmissionMatters(s, Put(s, g, next), t);
    }
  }

  lemma PutMemberKeeps(s: Stream, g: nat, k: nat, member: Member)
    requires g < |s.tasks| && s.tasks[g].phase.Collecting? && k < |s.tasks[g].phase.members|
    ensures SameAdmission(s, PutMember(s, g, k, member))
  {
  }

  lemma SameItself(s: Stream)
    ensures SameAdmission(s, s)
  {
  }

  lemma OnlyAdmissionMatters(s: Stream, t: Stream, u: Stream)
    requires SameAdmission(s, t)
    requires u.plans == t.plans && u.runId == t.runId && u.sequence == t.sequence && u.tasks == t.tasks
    ensures SameAdmission(s, u)
  {
  }

  lemma StartKeeps(config: StreamConfig, s: Stream, g: nat, k: nat)
    ensures SameAdmission(s, Start(config, s, g, k))
  {
    hide PutMember, SameAdmission;
    SameItself(s);
    var t := Start(config, s, g, k);
    if At(s.tasks, g, k, Waiting) {
      PutMemberKeeps(s, g, k, Room);
      PutMemberKeeps(s, g, k, Working);
      PutMemberKeeps(s, g, k, Done(NOT_ADMITTED));
      if t != s {
        OnlyAdmissionMatters(s, PutMember(s, g, k, if !s.tasks[g].waves then Room else if s.cancelled then Done(NOT_ADMITTED) else Working), t);
      }
    }
  }

  lemma GrantKeeps(config: StreamConfig, s: Stream, g: nat, k: nat)
    ensures SameAdmission(s, Grant(config, s, g, k))
  {
    hide PutMember, SameAdmission, Fits, Credit;
    SameItself(s);
    var t := Grant(config, s, g, k);
    if At(s.tasks, g, k, Room) {
      PutMemberKeeps(s, g, k, Working);
      PutMemberKeeps(s, g, k, Done(NOT_ADMITTED));
      if t != s {
        OnlyAdmissionMatters(s, PutMember(s, g, k, if s.cancelled then Done(NOT_ADMITTED) else Working), t);
      }
    }
  }

  lemma FinishKeeps(s: Stream, g: nat, k: nat, outcome: Outcome)
    ensures SameAdmission(s, Finish(s, g, k, outcome))
  {
    hide PutMember, SameAdmission, Outcome.Safe, Credit, Debit;
    SameItself(s);
    var t := Finish(s, g, k, outcome);
    if At(s.tasks, g, k, Working) {
      PutMemberKeeps(s, g, k, Done(outcome));
      if t != s {
        OnlyAdmissionMatters(s, PutMember(s, g, k, Done(outcome)), t);
      }
    }
  }

  lemma GatheredKeeps(s: Stream, g: nat, uncertain: bool)
    requires g < |s.tasks|
    ensures SameAdmission(s, Gathered(s, g, uncertain))
  {
    hide SameAdmission, Put, AllDone, Identified;
    SameItself(s);
    var task, t := s.tasks[g], Gathered(s, g, uncertain);
    if t != s {
      var observed := Outcomes(task.phase.members);
      var next := if task.waves then task.(phase := Settling(observed, uncertain))
                  else task.(phase := Complete, offset := task.offset + |observed|,
                             results := task.results + Identified(s.plans, task.start + task.offset, observed));
      PutKeeps(s, g, next);
      OnlyAdmissionMatters(s, Put(s, g, next), t);
    }
  }

  lemma SettleKeeps(s: Stream, g: nat)
    requires g < |s.tasks|
    ensures SameAdmission(s, Settle(s, g))
  {
    hide SameAdmission, Put, Settle, SettledTask, SettledLedgers;
    SameItself(s);
    var task := s.tasks[g];
    if task.phase.Settling? && task.start + task.offset + |task.phase.observed| <= |s.plans| {
      SettleIs(s, g);
      LedgersMoved(s, task);
      SettledKeeps(s.plans, task);
      PutKeeps(s, g, SettledTask(s.plans, task));
      PutIs(s, g, SettledTask(s.plans, task));
      OnlyAdmissionMatters(s, Put(s, g, SettledTask(s.plans, task)), Settle(s, g));
    } else {
      SettleIdle(s, g);
    }
  }

  lemma SettledKeeps(plans: seq<Plan>, task: Task)
    requires task.phase.Settling? && task.start + task.offset + |task.phase.observed| <= |plans|
    ensures SettledTask(plans, task).start == task.start && SettledTask(plans, task).stop == task.stop
  {
    hide Identified, Doubted, ProvenSafe;
  }

  lemma PutIs(s: Stream, g: nat, task: Task)
    requires g < |s.tasks|
    ensures Put(s, g, task) == s.(tasks := s.tasks[g := task])
  {
  }

  lemma HandBackKeeps(s: Stream, g: nat)
    requires g < |s.tasks|
    ensures SameAdmission(s, HandBack(s, g))
  {
    hide SameAdmission, Put;
    SameItself(s);
    var t := HandBack(s, g);
    if t != s {
      PutKeeps(s, g, s.tasks[g].(phase := Returned));
      OnlyAdmissionMatters(s, Put(s, g, s.tasks[g].(phase := Returned)), t);
    }
  }

  lemma AttemptKeeps(s: Stream, waiter: Waiter, t: Stream)
    requires SameAdmission(s, t)
    ensures SameAdmission(s, Attempt(s, waiter, t)) && SameAdmission(s, Notified(s, t))
  {
  }

  lemma StepKeeps(config: StreamConfig, s: Stream, event: Event)
    requires !event.Submission?
    ensures SameAdmission(s, Step(config, s, event))
  {
    hide SameAdmission, Enter, Choose, Reserve, Admitted, Start, Grant, Finish, Gathered, Settle, HandBack, AllReturned, Attempt, Notified;
    SameItself(s);
    match event
    case Submission(_, _) =>
    case Entering(g) => if g < |s.tasks| { EnterKeeps(config, s, g); }
    case LoopHead(g) => if g < |s.tasks| { ChooseKeeps(config, s, g); }
    case Reserved(g) =>
      if g < |s.tasks| {
        ReserveKeeps(config, s, g);
        AttemptKeeps(s, OfWave(g), Reserve(config, s, g));
      }
    case HookReturned(g, ok) => if g < |s.tasks| { AdmittedKeeps(s, g, ok); }
    case Started(g, k) => StartKeeps(config, s, g, k);
    case Granted(g, k) =>
      GrantKeeps(config, s, g, k);
      AttemptKeeps(s, OfPlan(g, k), Grant(config, s, g, k));
    case Finished(g, k, outcome) =>
      FinishKeeps(s, g, k, outcome);
      AttemptKeeps(s, OfPlan(g, k), Finish(s, g, k, outcome));
    case BatchEnded(g, uncertain) => if g < |s.tasks| { GatheredKeeps(s, g, uncertain); }
    case Settled(g) =>
      if g < |s.tasks| {
        SettleKeeps(s, g);
        AttemptKeeps(s, OfWave(g), Settle(s, g));
      }
    case Handed(g) => if g < |s.tasks| { HandBackKeeps(s, g); }
    case Cancellation => OnlyAdmissionMatters(s, s, Step(config, s, event));
    case Pausing => OnlyAdmissionMatters(s, s, Step(config, s, event));
    case Resuming => OnlyAdmissionMatters(s, s, Step(config, s, event));
    case Closing => OnlyAdmissionMatters(s, s, Step(config, s, event));
  }

  lemma {:induction false} ExecuteGroups(config: StreamConfig, events: seq<Event>)
    ensures var s := Execute(config, events); AllGroups(s) && OneRun(s) && InSequence(s, Sequences(config, events))
  {
    hide Step, AllGroups, OneRun, InSequence, SameAdmission;
    if events == [] {
      NoGroups();
    } else {
      var front, last := events[..|events| - 1], events[|events| - 1];
      var s := Execute(config, front);
      ExecuteGroups(config, front);
      if last.Submission? {
        O.SubmissionIs(config, s, last);
        SubmitGroups(config, s, last.plans, last.sequence, Sequences(config, front));
      } else {
        StepKeeps(config, s, last);
        SameGroupsKept(s, Step(config, s, last), Sequences(config, front));
      }
    }
  }

  lemma NoGroups()
    ensures AllGroups(Opened()) && OneRun(Opened()) && InSequence(Opened(), [])
  {
  }

  /** All plans ever taken on belong to one run, the plans of a group are different episodes of one semantic group,
      and the groups came in strictly increasing sequence. */
  lemma OneRunPerStream(config: StreamConfig, events: seq<Event>)
    ensures var (s, sequences) := (Execute(config, events), Sequences(config, events));
            && (forall i, j :: 0 <= i < |s.plans| && 0 <= j < |s.plans| ==> s.plans[i].runId == s.plans[j].runId)
            && (forall g :: 0 <= g < |s.tasks| ==> OneGroup(s.plans, s.tasks[g].start, s.tasks[g].stop))
            && |sequences| == |s.tasks| && (forall g :: 0 <= g < |sequences| ==> 0 <= sequences[g])
            && (forall g, h :: 0 <= g < h < |sequences| ==> sequences[g] < sequences[h])
  {
    hide Execute, Sequences, OneGroup;
    ExecuteGroups(config, events);
  }

  // ----- what is taken on

  /** The plans are different episodes of one semantic group and one run. */
  predicate WellFormed(plans: seq<Plan>) {
    && plans != []
    && (forall i, j :: 0 <= i < j < |plans| ==> plans[i].identity != plans[j].identity)
    && (forall i :: 0 <= i < |plans| ==> plans[i].group == plans[0].group && plans[i].runId == plans[0].runId)
  }

  /** The group continues the stream: its run, later than every group before, within the input credit. */
  ghost predicate ContinuesStream(config: StreamConfig, s: Stream, sequences: seq<int>, plans: seq<Plan>, sequence: int)
    requires plans != []
  {
    && !s.closed && !s.paused && 0 <= sequence && (forall g :: 0 <= g < |sequences| ==> sequences[g] < sequence)
    && (forall i :: 0 <= i < |s.plans| ==> s.plans[i].runId == plans[0].runId)
    && Outstanding(s.tasks) + |plans| <= config.maxPending
  }

  /** A backend runs the group, owns the stages it needs, and each of its plans fits its executor alone. */
  ghost predicate Runnable(config: StreamConfig, owners: map<Executor, Name>, plans: seq<Plan>)
    requires plans != []
  {
    && plans[0].group.benchmark in config.limits.backends
    && forall i :: 0 <= i < |plans| ==>
         && Fits(map[], config.limits.capacities, plans[i].requirement)
         && (!plans[i].requirement.episodeScoped && plans[i].requirement.executor in owners ==>
               owners[plans[i].requirement.executor] == config.limits.backends[plans[0].group.benchmark])
  }

  /** A backend's own claims take nothing from it. */
  lemma {:induction false} OwnClaims(owners: map<Executor, Name>, backend: Name, plans: seq<Plan>, n: nat, requirement: Requirement)
    requires n <= |plans|
    ensures StageTaken(Claims(owners, backend, plans, n), backend, requirement) <==> StageTaken(owners, backend, requirement)
    decreases n
  {
    if n > 0 {
      OwnClaims(owners, backend, plans, n - 1, requirement);
    }
  }

  lemma RunnableIff(config: StreamConfig, s: Stream, plans: seq<Plan>)
    requires plans != [] && plans[0].group.benchmark in config.limits.backends
    ensures Refused(config, s, plans) == |plans| <==> Runnable(config, s.owners, plans)
  {
    hide Fits, Claims, StageTaken;
    var backend, first := config.limits.backends[plans[0].group.benchmark], Refused(config, s, plans);
    forall i | 0 <= i < |plans|
      ensures Acceptable(config.limits.capacities, Claims(s.owners, backend, plans, i), backend, plans[i].requirement) <==>
                Acceptable(config.limits.capacities, s.owners, backend, plans[i].requirement)
    {
      OwnClaims(s.owners, backend, plans, i, plans[i].requirement);
    }
    forall i | 0 <= i < |plans| ensures StageTaken(s.owners, backend, plans[i].requirement) <==>
        !plans[i].requirement.episodeScoped && plans[i].requirement.executor in s.owners
        && s.owners[plans[i].requirement.executor] != backend
    {
      TakenIs(s.owners, backend, plans[i].requirement);
    }
  }

  lemma TakenIs(owners: map<Executor, Name>, backend: Name, requirement: Requirement)
    ensures StageTaken(owners, backend, requirement) <==>
              !requirement.episodeScoped && requirement.executor in owners && owners[requirement.executor] != backend
  {
  }

  lemma GroupIff(config: StreamConfig, s: Stream, sequences: seq<int>, plans: seq<Plan>, sequence: int)
    requires OneRun(s) && InSequence(s, sequences) && s.pending == Outstanding(s.tasks)
    ensures CheckGroup(config, s, plans, sequence) == None <==>
              && WellFormed(plans) && ContinuesStream(config, s, sequences, plans, sequence)
              && plans[0].group.benchmark in config.limits.backends
  {
    hide Outstanding;
    if CheckGroup(config, s, plans, sequence) == None {
      forall i, j | 0 <= i < j < |plans| ensures plans[i].identity != plans[j].identity {
      }
      forall i | 0 <= i < |plans| ensures plans[i].group == plans[0].group && plans[i].runId == plans[0].runId {
      }
    }
    if WellFormed(plans) && ContinuesStream(config, s, sequences, plans, sequence) {
      if s.plans != [] {
        assert s.plans[0].runId == plans[0].runId;
      }
    }
  }

  /** A group is taken on exactly if it is well formed, continues the open stream and can be run. */
  lemma TakenOnIff(config: StreamConfig, events: seq<Event>, plans: seq<Plan>, sequence: int)
    requires config.Valid() && GoodEvents(events)
    ensures var s := Execute(config, events);
            |Submit(config, s, plans, sequence).tasks| > |s.tasks| <==>
              && WellFormed(plans) && ContinuesStream(config, s, Sequences(config, events), plans, sequence)
              && Runnable(config, s.owners, plans)
  {
    hide Execute, Sequences, Sound, CheckGroup, WellFormed, ContinuesStream, Runnable, OneRun, InSequence, Refused, OwnersAfter;
    var s := Execute(config, events);
    ExecuteGroups(config, events);
    ExecuteSound(config, events);
    PendingIs(config, s);
    GroupIff(config, s, Sequences(config, events), plans, sequence);
    if CheckGroup(config, s, plans, sequence) == None {
      O.GroupOk(config, s, plans, sequence);
      RunnableIff(config, s, plans);
    }
    RunnableNeeds(config, s, plans);
    WellFormedSome(plans);
  }

  lemma WellFormedSome(plans: seq<Plan>)
    ensures WellFormed(plans) ==> plans != []
  {
  }

  lemma RunnableNeeds(config: StreamConfig, s: Stream, plans: seq<Plan>)
    ensures plans != [] && Runnable(config, s.owners, plans) ==> plans[0].group.benchmark in config.limits.backends
  {
  }

  lemma PendingIs(config: StreamConfig, s: Stream)
    requires Sound(config, s)
    ensures s.pending == Outstanding(s.tasks)
  {
    hide Books, Owners, TaskOk;
  }

  // ----- closing

  lemma AppendEvent(config: StreamConfig, events: seq<Event>, event: Event)
    ensures Execute(config, events + [event]) == Step(config, Execute(config, events), event)
  {
    assert (events + [event])[..|events|] == events;
  }

  /** Closed with every group handed back. */
  ghost predicate ClosedDown(s: Stream) {
    s.closed && s.paused && AllReturned(s)
  }

  /** A step of a task that has been handed back changes nothing. */
  lemma ReturnedIdle(config: StreamConfig, s: Stream, g: nat, ok: bool)
    requires g < |s.tasks| && s.tasks[g].phase == Returned
    ensures Enter(config, s, g) == Choose(config, s, g) == Admitted(s, g, ok) == Gathered(s, g, ok) == Settle(s, g) == HandBack(s, g) == s
  {
  }

  lemma NobodyWorks(s: Stream, g: nat, k: nat)
    requires AllReturned(s)
    ensures forall member :: !At(s.tasks, g, k, member)
  {
  }

  lemma StaysClosed(config: StreamConfig, s: Stream, event: Event)
    requires ClosedDown(s)
    ensures ClosedDown(Step(config, s, event)) && Step(config, s, event).tasks == s.tasks
  {
    hide Enter, Choose, Admitted, Gathered, Settle, HandBack, Reserve, CheckSubmission, OwnersAfter, AllReturned;
    match event
    case Submission(plans, sequence) =>
      ClosedRefuses(config, s, plans, sequence);
      SameReturned(s, Step(config, s, event));
    case Entering(g) => if g < |s.tasks| { PhaseOf(s, g); ReturnedIdle(config, s, g, false); }
    case LoopHead(g) => if g < |s.tasks| { PhaseOf(s, g); ReturnedIdle(config, s, g, false); }
    case Reserved(g) => if g < |s.tasks| { PhaseOf(s, g); }
    case HookReturned(g, ok) => if g < |s.tasks| { PhaseOf(s, g); ReturnedIdle(config, s, g, ok); }
    case Started(g, k) => NobodyWorks(s, g, k);
    case Granted(g, k) => NobodyWorks(s, g, k);
    case Finished(g, k, _) => NobodyWorks(s, g, k);
    case BatchEnded(g, uncertain) => if g < |s.tasks| { PhaseOf(s, g); ReturnedIdle(config, s, g, uncertain); }
    case Settled(g) => if g < |s.tasks| { PhaseOf(s, g); ReturnedIdle(config, s, g, false); }
    case Handed(g) => if g < |s.tasks| { PhaseOf(s, g); ReturnedIdle(config, s, g, false); }
    case _ => SameReturned(s, Step(config, s, event));
  }

  lemma PhaseOf(s: Stream, g: nat)
    requires AllReturned(s) && g < |s.tasks|
    ensures s.tasks[g].phase == Returned
  {
  }

  lemma SameReturned(s: Stream, t: Stream)
    requires t.tasks == s.tasks && AllReturned(s)
    ensures AllReturned(t)
  {
  }

  lemma ClosedRefuses(config: StreamConfig, s: Stream, plans: seq<Plan>, sequence: int)
    requires s.closed
    ensures CheckSubmission(config, s, plans, sequence) == Some(Unavailable)
  {
  }

  /** Closing succeeds exactly when every group has been handed back, and it is for good: nothing is taken on or
      changes any more. */
  lemma {:induction false} ClosedForGood(config: StreamConfig, events: seq<Event>, more: seq<Event>)
    ensures var (s, t) := (Execute(config, events), Execute(config, events + [Closing] + more));
            AllReturned(s) ==> ClosedDown(t) && t.tasks == s.tasks
    ensures var s := Execute(config, events); !AllReturned(s) ==> Execute(config, events + [Closing]) == s
    decreases |more|
  {
    hide Execute, Step, ClosedDown, AllReturned;
    AppendEvent(config, events, Closing);
    ClosingDoes(config, Execute(config, events));
    if more == [] {
      assert events + [Closing] + more == events + [Closing];
    } else {
      var front, last := more[..|more| - 1], more[|more| - 1];
      ClosedForGood(config, events, front);
      assert events + [Closing] + more == events + [Closing] + front + [last];
      AppendEvent(config, events + [Closing] + front, last);
      if AllReturned(Execute(config, events)) {
        StaysClosed(config, Execute(config, events + [Closing] + front), last);
      }
    }
  }

  lemma ClosingDoes(config: StreamConfig, s: Stream)
    ensures AllReturned(s) ==> ClosedDown(Step(config, s, Closing)) && Step(config, s, Closing).tasks == s.tasks
    ensures !AllReturned(s) ==> Step(config, s, Closing) == s
  {
  }

  // ----- pausing

  /** A pause holds until a resumption, which needs an open stream that is not cancelled. */
  ghost predicate PausedBy(config: StreamConfig, events: seq<Event>) {
    if events == [] then false
    else
      var (s, last) := (Execute(config, events[..|events| - 1]), events[|events| - 1]);
      if last == Pausing || (last == Closing && AllReturned(s)) then true
      else if last == Resuming && !s.closed && !s.cancelled then false
      else PausedBy(config, events[..|events| - 1])
  }

  predicate SameFlags(s: Stream, t: Stream) {
    t.paused == s.paused && t.closed == s.closed
  }

  lemma PutFlags(s: Stream, g: nat, task: Task)
    requires g < |s.tasks|
    ensures SameFlags(s, Put(s, g, task))
  {
  }

  lemma PutMemberFlags(s: Stream, g: nat, k: nat, member: Member)
    requires g < |s.tasks| && s.tasks[g].phase.Collecting? && k < |s.tasks[g].phase.members|
    ensures SameFlags(s, PutMember(s, g, k, member))
  {
  }

  lemma TaskFlags(config: StreamConfig, s: Stream, g: nat, ok: bool)
    requires g < |s.tasks|
    ensures SameFlags(s, Enter(config, s, g)) && SameFlags(s, Choose(config, s, g)) && SameFlags(s, Admitted(s, g, ok))
    ensures SameFlags(s, HandBack(s, g))
  {
    hide Put, Chosen;
    forall task ensures SameFlags(s, Put(s, g, task)) {
      PutFlags(s, g, task);
    }
  }

  lemma ReserveFlags(config: StreamConfig, s: Stream, g: nat)
    requires g < |s.tasks|
    ensures SameFlags(s, Reserve(config, s, g))
  {
    hide Put, RangeFits, CreditRange, Range;
    forall task ensures SameFlags(s, Put(s, g, task)) {
      PutFlags(s, g, task);
    }
  }

  lemma GatheredFlags(s: Stream, g: nat, uncertain: bool)
    requires g < |s.tasks|
    ensures SameFlags(s, Gathered(s, g, uncertain))
  {
    hide Put, AllDone, Identified;
    forall task ensures SameFlags(s, Put(s, g, task)) {
      PutFlags(s, g, task);
    }
  }

  lemma SettleFlags(s: Stream, g: nat)
    requires g < |s.tasks|
    ensures SameFlags(s, Settle(s, g))
  {
    hide Put, ProvenSafe, Identified, Doubted, CreditRange, DebitRange, Range;
    forall task ensures SameFlags(s, Put(s, g, task)) {
      PutFlags(s, g, task);
    }
  }

  lemma StartFlags(config: StreamConfig, s: Stream, g: nat, k: nat)
    ensures SameFlags(s, Start(config, s, g, k))
  {
    hide PutMember;
    if g < |s.tasks| && s.tasks[g].phase.Collecting? && k < |s.tasks[g].phase.members| {
      PutMemberFlags(s, g, k, Room);
      PutMemberFlags(s, g, k, Working);
      PutMemberFlags(s, g, k, Done(NOT_ADMITTED));
    }
  }

  lemma GrantFlags(config: StreamConfig, s: Stream, g: nat, k: nat)
    ensures SameFlags(s, Grant(config, s, g, k))
  {
    hide PutMember, Fits, Credit;
    if g < |s.tasks| && s.tasks[g].phase.Collecting? && k < |s.tasks[g].phase.members| {
      PutMemberFlags(s, g, k, Working);
      PutMemberFlags(s, g, k, Done(NOT_ADMITTED));
    }
  }

  lemma FinishFlags(s: Stream, g: nat, k: nat, outcome: Outcome)
    ensures SameFlags(s, Finish(s, g, k, outcome))
  {
    hide PutMember, Credit, Debit, Outcome.Safe;
    if g < |s.tasks| && s.tasks[g].phase.Collecting? && k < |s.tasks[g].phase.members| {
      PutMemberFlags(s, g, k, Done(outcome));
    }
  }

  lemma SubmitFlags(config: StreamConfig, s: Stream, plans: seq<Plan>, sequence: int)
    ensures SameFlags(s, Submit(config, s, plans, sequence))
  {
    hide CheckSubmission, OwnersAfter;
  }

  lemma StepFlags(config: StreamConfig, s: Stream, event: Event)
    requires event != Pausing && event != Resuming && event != Closing
    ensures SameFlags(s, Step(config, s, event))
  {
    hide Submit, Enter, Choose, Reserve, Admitted, Start, Grant, Finish, Gathered, Settle, HandBack;
    match event
    case Submission(plans, sequence) => SubmitFlags(config, s, plans, sequence);
    case Entering(g) => if g < |s.tasks| { TaskFlags(config, s, g, false); }
    case LoopHead(g) => if g < |s.tasks| { TaskFlags(config, s, g, false); }
    case Reserved(g) => if g < |s.tasks| { ReserveFlags(config, s, g); }
    case HookReturned(g, ok) => if g < |s.tasks| { TaskFlags(config, s, g, ok); }
    case Started(g, k) => StartFlags(config, s, g, k);
    case Granted(g, k) => GrantFlags(config, s, g, k);
    case Finished(g, k, outcome) => FinishFlags(s, g, k, outcome);
    case BatchEnded(g, uncertain) => if g < |s.tasks| { GatheredFlags(s, g, uncertain); }
    case Settled(g) => if g < |s.tasks| { SettleFlags(s, g); }
    case Handed(g) => if g < |s.tasks| { TaskFlags(config, s, g, false); }
    case Cancellation =>
    case Pausing =>
    case Resuming =>
    case Closing =>
  }

  lemma {:induction false} PausedIff(config: StreamConfig, events: seq<Event>)
    ensures Execute(config, events).paused <==> PausedBy(config, events)
  {
    hide AllReturned, Step;
    if events != [] {
      var s, last := Execute(config, events[..|events| - 1]), events[|events| - 1];
      PausedIff(config, events[..|events| - 1]);
      if last == Pausing || last == Resuming || last == Closing {
        FlagSteps(config, s);
      } else {
        StepFlags(config, s, last);
      }
    }
  }

  lemma FlagSteps(config: StreamConfig, s: Stream)
    ensures Step(config, s, Pausing).paused
    ensures Step(config, s, Resuming).paused <==> s.paused && (s.closed || s.cancelled)
    ensures Step(config, s, Closing).paused <==> s.paused || AllReturned(s)
  {
    hide AllReturned;
  }
}
