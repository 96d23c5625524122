/** Where the results of a stream come from: each is what its one episode reported, or stands for an episode that a
    cancelled stream never ran; and why a wave is quarantined. */
module StreamReports {
  import opened Basics
  import opened Wrappers
  import opened Resources
  import opened CoordinatorSpec
  import opened StreamSpec
  import opened StreamTheorems
  import opened StreamGroups

  // ----- what was reported

  /** The event reports the outcome of a running episode. */
  predicate Reports(s: Stream, event: Event) {
    event.Finished? && At(s.tasks, event.g, event.k, Working) && PlanOf(s.tasks[event.g], event.k) < |s.plans|
  }

  /** Under each plan, the outcome reported for it. */
  function Reported(config: StreamConfig, events: seq<Event>): map<nat, Outcome> {
    if events == [] then map[]
    else
      var (front, last) := (events[..|events| - 1], events[|events| - 1]);
      var s := Execute(config, front);
      ReportedNow(Reported(config, front), s, last)
  }

  function ReportedNow(reported: map<nat, Outcome>, s: Stream, event: Event): map<nat, Outcome> {
    if Reports(s, event) then reported[PlanOf(s.tasks[event.g], event.k) := event.outcome] else reported
  }

  /** The outcome as it is recorded when the closing of its wave left a doubt. */
  function InDoubt(outcome: Outcome): Outcome {
    outcome.(cleanup := Unknown, uncertain := true)
  }

  /** A recorded outcome is the one reported, or stands for an episode that a cancelled stream never ran. */
  predicate Faithful(outcome: Outcome, reported: Option<Outcome>, cancelled: bool) {
    match reported
    case Some(r) => outcome == r || outcome == InDoubt(r)
    case None =>
      && cancelled
      && (outcome == NOT_ADMITTED || outcome == InDoubt(NOT_ADMITTED) || outcome == UNRESOLVED || outcome == InDoubt(UNRESOLVED))
  }

  /** What the task knows of its plan i: the recorded result, or the outcome its batch has gathered. */
  function Known(task: Task, i: nat): Option<Outcome> {
    var k := i - task.start - task.offset;
    if task.start <= i < task.start + |task.results| then Some(task.results[i - task.start].outcome)
    else if k < 0 then None
    else
      match task.phase
      case Collecting(members) => if k < |members| && members[k].Done? then Some(members[k].outcome) else None
      case Settling(observed, _) => if k < |observed| then Some(observed[k]) else None
      case _ => None
  }

  function Find(reported: map<nat, Outcome>, i: nat): Option<Outcome> {
    if i in reported then Some(reported[i]) else None
  }

  /** Only what has been reported is known, and all of it. */
  predicate Told(task: Task, reported: map<nat, Outcome>, cancelled: bool, i: nat) {
    match Known(task, i)
    case None => i !in reported
    case Some(outcome) => Faithful(outcome, Find(reported, i), cancelled)
  }

  ghost predicate TaskTold(task: Task, reported: map<nat, Outcome>, cancelled: bool) {
    forall i: nat :: task.start <= i < task.stop ==> Told(task, reported, cancelled, i)
  }

  ghost predicate AllTold(s: Stream, reported: map<nat, Outcome>) {
    && (forall g :: 0 <= g < |s.tasks| ==> TaskTold(s.tasks[g], reported, s.cancelled))
    && forall i :: i in reported ==> i < |s.plans|
  }

  // ----- one step

  /** What the task comes to know of a plan is what is reported of it now. */
  ghost predicate Learns(task: Task, next: Task, i: nat, news: Option<Outcome>, cancelled: bool) {
    match Known(task, i)
    case Some(o) => Known(next, i).Some? && (Known(next, i).value == o || Known(next, i).value == InDoubt(o)) && news.None?
    case None =>
      match news
      case Some(r) => Known(next, i) == Some(r)
      case None => Known(next, i).Some? ==> cancelled && (Known(next, i).value == NOT_ADMITTED || Known(next, i).value == UNRESOLVED)
  }

  lemma InDoubtTwice(outcome: Outcome)
    ensures InDoubt(InDoubt(outcome)) == InDoubt(outcome)
  {
  }

  lemma LearnsTold(task: Task, next: Task, i: nat, reported: map<nat, Outcome>, news: Option<Outcome>, cancelled: bool, now: bool)
    requires Told(task, reported, cancelled, i) && Learns(task, next, i, news, now) && (cancelled ==> now)
    ensures Told(next, if news.Some? then reported[i := news.value] else reported, now, i)
  {
    hide Known;
    if Known(task, i).Some? {
      InDoubtTwice(if i in reported then reported[i] else NOT_ADMITTED);
      InDoubtTwice(UNRESOLVED);
    }
  }

  /** What the event reports of plan i. */
  function News(s: Stream, event: Event, i: nat): Option<Outcome> {
    if Reports(s, event) && i == PlanOf(s.tasks[event.g], event.k) then Some(event.outcome) else None
  }

  /** The task stays where it is, and learns only what the event reports. */
  ghost predicate TaskLearns(s: Stream, task: Task, next: Task, event: Event, cancelled: bool) {
    && next.start == task.start && next.stop == task.stop
    && forall i: nat :: task.start <= i < task.stop ==> Learns(task, next, i, News(s, event, i), cancelled)
  }

  lemma KeepsTask(s: Stream, task: Task, event: Event, cancelled: bool)
    requires forall i: nat :: task.start <= i < task.stop ==> News(s, event, i) == None
    ensures TaskLearns(s, task, task, event, cancelled)
  {
  }

  /** A task outside its batch's collection, with nothing to report. */
  lemma MovesOn(s: Stream, task: Task, next: Task, event: Event, cancelled: bool)
    requires !Reports(s, event) && next.start == task.start && next.stop == task.stop
    requires forall i: nat :: task.start <= i < task.stop ==> Learns(task, next, i, None, cancelled)
    ensures TaskLearns(s, task, next, event, cancelled)
  {
    forall i: nat ensures News(s, event, i) == None {
    }
  }

  lemma EnterLearns(task: Task, i: nat, cancelled: bool)
    requires task.phase == Queued && task.start <= task.stop && task.offset == |task.results| == 0
    ensures Learns(task, task.(phase := if task.waves then Choosing else Collecting(AllWaiting(task.stop - task.start))), i, None, cancelled)
  {
  }

  lemma ChosenLearns(config: StreamConfig, plans: seq<Plan>, cancelled: bool, task: Task, i: nat)
    requires task.phase == Choosing && |task.results| == task.offset && task.start + task.offset <= task.stop <= |plans|
    requires task.start <= i < task.stop
    ensures Learns(task, Chosen(config, plans, cancelled, task), i, None, cancelled)
  {
    hide WaveSize;
    var low := task.start + task.offset;
    if cancelled && low != task.stop && low <= i {
      assert NotAdmittedFrom(plans, low, task.stop)[i - low].outcome == NOT_ADMITTED;
    }
  }

  lemma ReserveLearns(task: Task, i: nat, cancelled: bool)
    requires task.phase.Reserving?
    ensures Learns(task, task.(phase := Choosing), i, None, cancelled)
    ensures Learns(task, task.(phase := Opening(task.phase.size)), i, None, cancelled)
  {
  }

  lemma AdmittedLearns(task: Task, i: nat, cancelled: bool)
    requires task.phase.Opening?
    ensures Learns(task, task.(phase := Collecting(AllWaiting(task.phase.size))), i, None, cancelled)
    ensures cancelled ==> Learns(task, task.(phase := Settling(Repeat(UNRESOLVED, task.phase.size), true)), i, None, cancelled)
  {
  }

  /** A member's step. */
  lemma MemberLearns(task: Task, k: nat, member: Member, i: nat, cancelled: bool)
    requires task.phase.Collecting? && k < |task.phase.members| && !task.phase.members[k].Done? && |task.results| == task.offset
    requires task.start <= i
    ensures var next := task.(phase := Collecting(task.phase.members[k := member]));
            && (!member.Done? || (member == Done(NOT_ADMITTED) && cancelled) ==> Learns(task, next, i, None, cancelled))
            && (member.Done? ==> Learns(task, next, i, if i == PlanOf(task, k) then Some(member.outcome) else None, cancelled))
  {
  }

  lemma GatheredLearns(plans: seq<Plan>, task: Task, uncertain: bool, i: nat, cancelled: bool)
    requires task.phase.Collecting? && AllDone(task.phase.members) && |task.results| == task.offset
    requires task.start + task.offset + |task.phase.members| <= |plans|
    ensures var observed := Outcomes(task.phase.members);
            && Learns(task, task.(phase := Settling(observed, uncertain)), i, None, cancelled)
            && Learns(task, task.(phase := Complete, offset := task.offset + |observed|,
                                  results := task.results + Identified(plans, task.start + task.offset, observed)), i, None, cancelled)
  {
  }

  lemma SettledLearns(plans: seq<Plan>, task: Task, i: nat, cancelled: bool)
    requires task.phase.Settling? && task.start + task.offset + |task.phase.observed| <= |plans| && |task.results| == task.offset
    ensures Learns(task, SettledTask(plans, task), i, None, cancelled)
  {
    hide ProvenSafe;
    var observed, k := task.phase.observed, i - task.start - task.offset;
    if 0 <= k < |observed| {
      assert Doubted(observed)[k] == InDoubt(observed[k]);
    }
  }

  lemma HandBackLearns(task: Task, i: nat, cancelled: bool)
    requires task.phase == Complete
    ensures Learns(task, task.(phase := Returned), i, None, cancelled)
  {
  }

  // ----- every step

  /** Every task learns only what the event reports. */
  ghost predicate StepLearns(s: Stream, t: Stream, event: Event) {
    && t.plans == s.plans && (s.cancelled ==> t.cancelled) && |t.tasks| == |s.tasks|
    && forall h :: 0 <= h < |s.tasks| ==> TaskLearns(s, s.tasks[h], t.tasks[h], event, t.cancelled)
  }

  /** A step of one task that reports nothing. */
  lemma OneLearns(s: Stream, t: Stream, event: Event, g: nat, next: Task)
    requires g < |s.tasks| && t.tasks == s.tasks[g := next] && t.plans == s.plans && (s.cancelled ==> t.cancelled)
    requires !Reports(s, event) && next.start == s.tasks[g].start && next.stop == s.tasks[g].stop
    requires forall i: nat :: s.tasks[g].start <= i < s.tasks[g].stop ==> Learns(s.tasks[g], next, i, None, t.cancelled)
    ensures StepLearns(s, t, event)
  {
    hide Learns, TaskLearns;
    MovesOn(s, s.tasks[g], next, event, t.cancelled);
    forall h | 0 <= h < |s.tasks| ensures TaskLearns(s, s.tasks[h], t.tasks[h], event, t.cancelled) {
      if h != g {
        NothingNew(s, s.tasks[h], event, t.cancelled);
      }
    }
  }

  lemma NothingNew(s: Stream, task: Task, event: Event, cancelled: bool)
    requires !Reports(s, event)
    ensures TaskLearns(s, task, task, event, cancelled)
  {
    hide Learns;
    forall i: nat ensures Learns(task, task, i, None, cancelled) {
      KnowsItself(task, i, cancelled);
    }
  }

  lemma KnowsItself(task: Task, i: nat, cancelled: bool)
    ensures Learns(task, task, i, None, cancelled)
  {
  }

  lemma SameLearns(s: Stream, t: Stream, event: Event)
    requires t.tasks == s.tasks && t.plans == s.plans && (s.cancelled ==> t.cancelled) && !Reports(s, event)
    ensures StepLearns(s, t, event)
  {
    hide Learns, TaskLearns;
    forall h | 0 <= h < |s.tasks| ensures TaskLearns(s, s.tasks[h], t.tasks[h], event, t.cancelled) {
      NothingNew(s, s.tasks[h], event, t.cancelled);
    }
  }

  /** How many results a task has before it is over. */
  lemma ResultsAtOffset(config: StreamConfig, s: Stream, g: nat)
    requires Sound(config, s) && g < |s.tasks|
    ensures var task := s.tasks[g];
            && task.start + task.offset + BatchSize(task) <= task.stop <= |s.plans| && task.start < task.stop
            && (!Over(task) ==> |task.results| == task.offset) && (task.phase == Queued ==> task.offset == 0)
  {
    hide Sound, Split, GoodWave, CalledOff, IdentifiedBy, Marks, WholeWaves, HistoryBelow;
    SoundTask(config, s, g);
  }

  lemma EnterStep(config: StreamConfig, s: Stream, g: nat, event: Event)
    requires Sound(config, s) && g < |s.tasks| && !Reports(s, event)
    ensures StepLearns(s, Enter(config, s, g), event)
  {
    hide Sound, StepLearns, Learns, Enter;
    ResultsAtOffset(config, s, g);
    EnterIs(config, s, g);
    if Enter(config, s, g) == s {
      SameLearns(s, s, event);
    } else {
      var task := s.tasks[g];
      var next := task.(phase := if task.waves then Choosing else Collecting(AllWaiting(task.stop - task.start)));
      forall i: nat | task.start <= i < task.stop ensures Learns(task, next, i, None, s.cancelled) {
        EnterLearns(task, i, s.cancelled);
      }
      OneLearns(s, Enter(config, s, g), event, g, next);
    }
  }

  lemma ChooseStep(config: StreamConfig, s: Stream, g: nat, event: Event)
    requires Sound(config, s) && g < |s.tasks| && !Reports(s, event)
    ensures StepLearns(s, Choose(config, s, g), event)
  {
    hide Sound, StepLearns, Learns, Chosen;
    ResultsAtOffset(config, s, g);
    var task := s.tasks[g];
    if task.phase == Choosing {
      var next := Chosen(config, s.plans, s.cancelled, task);
      forall i: nat | task.start <= i < task.stop ensures Learns(task, next, i, None, s.cancelled) {
        ChosenLearns(config, s.plans, s.cancelled, task, i);
      }
      ChosenPlace(config, s.plans, s.cancelled, task);
      OneLearns(s, Choose(config, s, g), event, g, next);
    } else {
      SameLearns(s, s, event);
    }
  }

  lemma ChosenPlace(config: StreamConfig, plans: seq<Plan>, cancelled: bool, task: Task)
    requires task.start + task.offset <= task.stop <= |plans|
    ensures var next := Chosen(config, plans, cancelled, task); next.start == task.start && next.stop == task.stop
  {
    hide WaveSize;
  }

  lemma ReserveStep(config: StreamConfig, s: Stream, g: nat, event: Event)
    requires g < |s.tasks| && !Reports(s, event)
    ensures StepLearns(s, Reserve(config, s, g), event)
  {
    hide StepLearns, Learns, RangeFits, CreditRange, Range;
    var task, t := s.tasks[g], Reserve(config, s, g);
    if t.tasks == s.tasks {
      SameLearns(s, t, event);
    } else {
      forall i: nat | task.start <= i < task.stop
        ensures Learns(task, task.(phase := Choosing), i, None, s.cancelled)
        ensures Learns(task, task.(phase := Opening(task.phase.size)), i, None, s.cancelled)
      {
        ReserveLearns(task, i, s.cancelled);
      }
      OneLearns(s, t, event, g, if s.cancelled then task.(phase := Choosing) else task.(phase := Opening(task.phase.size)));
    }
  }

  lemma AdmittedStep(s: Stream, g: nat, ok: bool, event: Event)
    requires g < |s.tasks| && !Reports(s, event)
    ensures StepLearns(s, Admitted(s, g, ok), event)
  {
    hide StepLearns, Learns;
    var task, t := s.tasks[g], Admitted(s, g, ok);
    if !task.phase.Opening? {
      SameLearns(s, t, event);
    } else {
      var next := task.(phase := if ok then Collecting(AllWaiting(task.phase.size))
                                 else Settling(Repeat(UNRESOLVED, task.phase.size), true));
      forall i: nat | task.start <= i < task.stop ensures Learns(task, next, i, None, t.cancelled) {
        AdmittedLearns(task, i, t.cancelled);
      }
      OneLearns(s, t, event, g, next);
    }
  }

  lemma MemberStep(s: Stream, t: Stream, g: nat, k: nat, member: Member, event: Event)
    requires g < |s.tasks| && s.tasks[g].phase.Collecting? && k < |s.tasks[g].phase.members|
    requires !s.tasks[g].phase.members[k].Done? && |s.tasks[g].results| == s.tasks[g].offset
    requires t.tasks == PutMember(s, g, k, member).tasks && t.plans == s.plans && (s.cancelled ==> t.cancelled)
    requires !Reports(s, event) && (!member.Done? || (member == Done(NOT_ADMITTED) && t.cancelled))
    ensures StepLearns(s, t, event)
  {
    hide StepLearns, Learns;
    var task := s.tasks[g];
    var next := task.(phase := Collecting(task.phase.members[k := member]));
    forall i: nat | task.start <= i < task.stop ensures Learns(task, next, i, None, t.cancelled) {
      MemberLearns(task, k, member, i, t.cancelled);
    }
    OneLearns(s, t, event, g, next);
  }

  lemma StartStep(config: StreamConfig, s: Stream, g: nat, k: nat, event: Event)
    requires Sound(config, s) && !Reports(s, event)
    ensures StepLearns(s, Start(config, s, g, k), event)
  {
    hide Sound, StepLearns, PutMember;
    var t := Start(config, s, g, k);
    if !At(s.tasks, g, k, Waiting) {
      SameLearns(s, t, event);
    } else {
      ResultsAtOffset(config, s, g);
      PutMemberPlans(s, g, k, Room);
      PutMemberPlans(s, g, k, Working);
      PutMemberPlans(s, g, k, Done(NOT_ADMITTED));
      if t == s {
        SameLearns(s, t, event);
      } else {
        MemberStep(s, t, g, k, if !s.tasks[g].waves then Room else if s.cancelled then Done(NOT_ADMITTED) else Working, event);
      }
    }
  }

  lemma PutMemberPlans(s: Stream, g: nat, k: nat, member: Member)
    requires g < |s.tasks| && s.tasks[g].phase.Collecting? && k < |s.tasks[g].phase.members|
    ensures PutMember(s, g, k, member).cancelled == s.cancelled && PutMember(s, g, k, member).plans == s.plans
  {
  }

  lemma GrantStep(config: StreamConfig, s: Stream, g: nat, k: nat, event: Event)
    requires Sound(config, s) && !Reports(s, event)
    ensures StepLearns(s, Grant(config, s, g, k), event)
  {
    hide Sound, StepLearns, PutMember, Fits;
    var t := Grant(config, s, g, k);
    if !At(s.tasks, g, k, Room) {
      SameLearns(s, t, event);
    } else {
      ResultsAtOffset(config, s, g);
      PutMemberPlans(s, g, k, Working);
      PutMemberPlans(s, g, k, Done(NOT_ADMITTED));
      if t == s {
        SameLearns(s, t, event);
      } else {
        MemberStep(s, t, g, k, if s.cancelled then Done(NOT_ADMITTED) else Working, event);
      }
    }
  }

  /** The step that reports. */
  lemma FinishStep(config: StreamConfig, s: Stream, g: nat, k: nat, outcome: Outcome)
    requires Sound(config, s)
    ensures StepLearns(s, Finish(s, g, k, outcome), Finished(g, k, outcome))
  {
    hide Sound, PutMember, Outcome.Safe, TaskLearns;
    var event, t := Finished(g, k, outcome), Finish(s, g, k, outcome);
    if !Reports(s, event) {
      SameLearns(s, t, event);
    } else {
      ResultsAtOffset(config, s, g);
      PutMemberPlans(s, g, k, Done(outcome));
      TaskReports(s, g, k, outcome, t);
      forall h | 0 <= h < |s.tasks| ensures TaskLearns(s, s.tasks[h], t.tasks[h], event, t.cancelled) {
        if h != g {
          OthersLearnNothing(config, s, g, k, outcome, h, t.cancelled);
        }
      }
    }
  }

  lemma TaskReports(s: Stream, g: nat, k: nat, outcome: Outcome, t: Stream)
    requires Reports(s, Finished(g, k, outcome)) && |s.tasks[g].results| == s.tasks[g].offset
    requires t.tasks == PutMember(s, g, k, Done(outcome)).tasks
    ensures |t.tasks| == |s.tasks| && TaskLearns(s, s.tasks[g], t.tasks[g], Finished(g, k, outcome), t.cancelled)
    ensures forall h :: 0 <= h < |s.tasks| && h != g ==> t.tasks[h] == s.tasks[h]
  {
    hide Learns;
    var task := s.tasks[g];
    forall i: nat | task.start <= i < task.stop
      ensures Learns(task, t.tasks[g], i, News(s, Finished(g, k, outcome), i), t.cancelled)
    {
      MemberLearns(task, k, Done(outcome), i, t.cancelled);
    }
  }

  lemma OthersLearnNothing(config: StreamConfig, s: Stream, g: nat, k: nat, outcome: Outcome, h: nat, cancelled: bool)
    requires Sound(config, s) && Reports(s, Finished(g, k, outcome)) && h < |s.tasks| && h != g
    ensures TaskLearns(s, s.tasks[h], s.tasks[h], Finished(g, k, outcome), cancelled)
  {
    hide Sound, Learns;
    ResultsAtOffset(config, s, g);
    TasksApart(config, s, g, h);
    forall i: nat | s.tasks[h].start <= i < s.tasks[h].stop
      ensures Learns(s.tasks[h], s.tasks[h], i, News(s, Finished(g, k, outcome), i), cancelled)
    {
      KnowsItself(s.tasks[h], i, cancelled);
    }
  }

  lemma TasksApart(config: StreamConfig, s: Stream, g: nat, h: nat)
    requires Sound(config, s) && g < |s.tasks| && h < |s.tasks| && g != h
    ensures s.tasks[g].stop <= s.tasks[h].start || s.tasks[h].stop <= s.tasks[g].start
  {
    hide Books, Bounds, TaskOk;
  }

  lemma GatheredStep(config: StreamConfig, s: Stream, g: nat, uncertain: bool, event: Event)
    requires Sound(config, s) && g < |s.tasks| && !Reports(s, event)
    ensures StepLearns(s, Gathered(s, g, uncertain), event)
  {
    hide Sound, StepLearns, Learns, AllDone, Identified;
    var task, t := s.tasks[g], Gathered(s, g, uncertain);
    ResultsAtOffset(config, s, g);
    if t == s {
      SameLearns(s, t, event);
    } else {
      var observed := Outcomes(task.phase.members);
      var next := if task.waves then task.(phase := Settling(observed, uncertain))
                  else task.(phase := Complete, offset := task.offset + |observed|,
                             results := task.results + Identified(s.plans, task.start + task.offset, observed));
      forall i: nat | task.start <= i < task.stop ensures Learns(task, next, i, None, t.cancelled) {
        GatheredLearns(s.plans, task, uncertain, i, t.cancelled);
      }
      OneLearns(s, t, event, g, next);
    }
  }

  lemma SettleStep(config: StreamConfig, s: Stream, g: nat, event: Event)
    requires Sound(config, s) && g < |s.tasks| && !Reports(s, event)
    ensures StepLearns(s, Settle(s, g), event)
  {
    hide Sound, StepLearns, Learns, Settle, SettledLedgers, SettledTask;
    var task, t := s.tasks[g], Settle(s, g);
    ResultsAtOffset(config, s, g);
    if task.phase.Settling? {
      SettleIs(s, g);
      LedgersMoved(s, task);
      SettledPlace(s.plans, task);
      forall i: nat | task.start <= i < task.stop ensures Learns(task, SettledTask(s.plans, task), i, None, t.cancelled) {
        SettledLearns(s.plans, task, i, t.cancelled);
      }
      OneLearns(s, t, event, g, SettledTask(s.plans, task));
    } else {
      SettleIdle(s, g);
      SameLearns(s, s, event);
    }
  }

  lemma SettledPlace(plans: seq<Plan>, task: Task)
    requires task.phase.Settling? && task.start + task.offset + |task.phase.observed| <= |plans|
    ensures SettledTask(plans, task).start == task.start && SettledTask(plans, task).stop == task.stop
  {
    hide Identified, Doubted, ProvenSafe;
  }

  lemma HandBackStep(s: Stream, g: nat, event: Event)
    requires g < |s.tasks| && !Reports(s, event)
    ensures StepLearns(s, HandBack(s, g), event)
  {
    hide StepLearns, Learns;
    var task, t := s.tasks[g], HandBack(s, g);
    if t == s {
      SameLearns(s, t, event);
    } else {
      forall i: nat | task.start <= i < task.stop ensures Learns(task, task.(phase := Returned), i, None, t.cancelled) {
        HandBackLearns(task, i, t.cancelled);
      }
      OneLearns(s, t, event, g, task.(phase := Returned));
    }
  }

  lemma AttemptLearns(s: Stream, waiter: Waiter, t: Stream, event: Event)
    requires StepLearns(s, t, event) && !Reports(s, event)
    ensures StepLearns(s, Attempt(s, waiter, t), event)
  {
    hide TaskLearns;
    SameLearns(s, s, event);
  }

  lemma NotifiedLearns(s: Stream, t: Stream, event: Event)
    requires StepLearns(s, t, event)
    ensures StepLearns(s, Notified(s, t), event)
  {
    hide TaskLearns;
  }

  lemma EveryStepLearns(config: StreamConfig, s: Stream, event: Event)
    requires Sound(config, s) && !event.Submission?
    ensures StepLearns(s, Step(config, s, event), event)
  {
    hide Sound, StepLearns, Enter, Choose, Reserve, Admitted, Start, Grant, Finish, Gathered, Settle, HandBack, AllReturned, Attempt, Notified;
    if !event.Finished? {
      SameLearns(s, s, event);
    }
    match event
    case Submission(_, _) =>
    case Entering(g) => if g < |s.tasks| { EnterStep(config, s, g, event); }
    case LoopHead(g) => if g < |s.tasks| { ChooseStep(config, s, g, event); }
    case Reserved(g) =>
      if g < |s.tasks| && s.tasks[g].phase.Reserving? {
        ReserveStep(config, s, g, event);
        AttemptLearns(s, OfWave(g), Reserve(config, s, g), event);
      }
    case HookReturned(g, ok) => if g < |s.tasks| { AdmittedStep(s, g, ok, event); }
    case Started(g, k) => StartStep(config, s, g, k, event);
    case Granted(g, k) =>
      if At(s.tasks, g, k, Room) {
        GrantStep(config, s, g, k, event);
        AttemptLearns(s, OfPlan(g, k), Grant(config, s, g, k), event);
      }
    case Finished(g, k, outcome) =>
      FinishStep(config, s, g, k, outcome);
      NotifiedLearns(s, Finish(s, g, k, outcome), event);
    case BatchEnded(g, uncertain) => if g < |s.tasks| { GatheredStep(config, s, g, uncertain, event); }
    case Settled(g) =>
      if g < |s.tasks| {
        SettleStep(config, s, g, event);
        NotifiedLearns(s, Settle(s, g), event);
      }
    case Handed(g) => if g < |s.tasks| { HandBackStep(s, g, event); }
    case Cancellation => SameLearns(s, Step(config, s, event), event);
    case Pausing => SameLearns(s, Step(config, s, event), event);
    case Resuming => SameLearns(s, Step(config, s, event), event);
    case Closing => SameLearns(s, Step(config, s, event), event);
  }

  // ----- whole runs

  lemma TaskStillTold(s: Stream, task: Task, next: Task, event: Event, reported: map<nat, Outcome>, cancelled: bool)
    requires TaskTold(task, reported, s.cancelled) && TaskLearns(s, task, next, event, cancelled) && (s.cancelled ==> cancelled)
    ensures TaskTold(next, ReportedNow(reported, s, event), cancelled)
  {
    hide Told, Learns, Reports;
    forall i: nat | next.start <= i < next.stop ensures Told(next, ReportedNow(reported, s, event), cancelled, i) {
      LearnsTold(task, next, i, reported, News(s, event, i), s.cancelled, cancelled);
      ToldSame(next, if News(s, event, i).Some? then reported[i := News(s, event, i).value] else reported,
               ReportedNow(reported, s, event), cancelled, i);
    }
  }

  lemma ToldSame(task: Task, reported: map<nat, Outcome>, now: map<nat, Outcome>, cancelled: bool, i: nat)
    requires Told(task, reported, cancelled, i) && Find(reported, i) == Find(now, i)
    ensures Told(task, now, cancelled, i)
  {
    hide Known;
  }

  lemma StepTold(config: StreamConfig, s: Stream, event: Event, reported: map<nat, Outcome>)
    requires Sound(config, s) && !event.Submission? && AllTold(s, reported)
    ensures AllTold(Step(config, s, event), ReportedNow(reported, s, event))
  {
    hide Sound, Step, TaskTold, TaskLearns, ReportedNow;
    var t := Step(config, s, event);
    EveryStepLearns(config, s, event);
    forall g | 0 <= g < |t.tasks| ensures TaskTold(t.tasks[g], ReportedNow(reported, s, event), t.cancelled) {
      TaskStillTold(s, s.tasks[g], t.tasks[g], event, reported, t.cancelled);
    }
    OfPlans(s, event, reported);
  }

  lemma OfPlans(s: Stream, event: Event, reported: map<nat, Outcome>)
    requires forall i :: i in reported ==> i < |s.plans|
    ensures forall i :: i in ReportedNow(reported, s, event) ==> i < |s.plans|
  {
  }

  lemma NewTaskTold(task: Task, reported: map<nat, Outcome>, cancelled: bool)
    requires task.phase == Queued && task.results == [] && forall i :: i in reported ==> i < task.start
    ensures TaskTold(task, reported, cancelled)
  {
  }

  lemma SubmitTold(config: StreamConfig, s: Stream, plans: seq<Plan>, sequence: int, reported: map<nat, Outcome>)
    requires AllTold(s, reported)
    ensures AllTold(Submit(config, s, plans, sequence), reported)
  {
    hide TaskTold, CheckSubmission, OwnersAfter;
    var t := Submit(config, s, plans, sequence);
    if CheckSubmission(config, s, plans, sequence) == None {
      NewTaskTold(t.tasks[|s.tasks|], reported, s.cancelled);
    }
  }

  lemma {:induction false} ExecuteTold(config: StreamConfig, events: seq<Event>)
    requires config.Valid() && GoodEvents(events)
    ensures AllTold(Execute(config, events), Reported(config, events))
  {
    hide Sound, Step, AllTold, ReportedNow, GoodEvent;
    if events == [] {
      NothingTold();
    } else {
      var front, last := events[..|events| - 1], events[|events| - 1];
      var s := Execute(config, front);
      ExecuteTold(config, front);
      ExecuteSound(config, front);
      if last.Submission? {
        SubmitTold(config, s, last.plans, last.sequence, Reported(config, front));
        SubmissionTells(config, s, last, Reported(config, front));
      } else {
        StepTold(config, s, last, Reported(config, front));
      }
    }
  }

  lemma NothingTold()
    ensures AllTold(Opened(), map[])
  {
  }

  lemma SubmissionTells(config: StreamConfig, s: Stream, event: Event, reported: map<nat, Outcome>)
    requires event.Submission?
    ensures ReportedNow(reported, s, event) == reported && Step(config, s, event) == Submit(config, s, event.plans, event.sequence)
  {
    hide Submit;
  }

  /** A recorded result is the outcome its one episode reported, or that with its cleanup put in doubt; of an episode
      that never ran it says so, and the stream has then been cancelled. */
  lemma ResultsAreReports(config: StreamConfig, events: seq<Event>, g: nat, k: nat)
    requires config.Valid() && GoodEvents(events)
    requires g < |Execute(config, events).tasks| && k < |Execute(config, events).tasks[g].results|
    ensures var (s, reported) := (Execute(config, events), Reported(config, events));
            Faithful(s.tasks[g].results[k].outcome, Find(reported, s.tasks[g].start + k), s.cancelled)
  {
    hide Execute, Sound, Reported, Faithful;
    ExecuteTold(config, events);
    var s := Execute(config, events);
    ExecuteSound(config, events);
    ResultsInRange(config, s, g);
    assert Told(s.tasks[g], Reported(config, events), s.cancelled, s.tasks[g].start + k);
  }

  lemma ResultsInRange(config: StreamConfig, s: Stream, g: nat)
    requires Sound(config, s) && g < |s.tasks|
    ensures s.tasks[g].start + |s.tasks[g].results| <= s.tasks[g].stop
  {
    hide Sound, Split, GoodWave, CalledOff, IdentifiedBy, Marks, WholeWaves, HistoryBelow;
    SoundTask(config, s, g);
  }

  /** No episode is reported twice: the one that runs has not been reported yet. */
  lemma ReportedOnce(config: StreamConfig, events: seq<Event>, g: nat, k: nat)
    requires config.Valid() && GoodEvents(events) && At(Execute(config, events).tasks, g, k, Working)
    ensures PlanOf(Execute(config, events).tasks[g], k) !in Reported(config, events)
  {
    hide Execute, Sound, Reported;
    ExecuteTold(config, events);
    ExecuteSound(config, events);
    var s := Execute(config, events);
    ResultsAtOffset(config, s, g);
    assert Told(s.tasks[g], Reported(config, events), s.cancelled, PlanOf(s.tasks[g], k));
  }

  // ----- why a wave is quarantined

  /** The plans an event leaves in doubt: of an episode that reports no proof of its cleanup, of a wave whose admission
      hook fails, and of a wave whose closing is uncertain. */
  function Doubts(s: Stream, event: Event): set<nat> {
    match event
    case Finished(g, k, outcome) => if Reports(s, event) && !outcome.Safe() then {PlanOf(s.tasks[g], k)} else {}
    case HookReturned(g, ok) =>
      if g < |s.tasks| && s.tasks[g].phase.Opening? && !ok then BatchRange(s.tasks[g]) else {}
    case BatchEnded(g, uncertain) =>
      if g < |s.tasks| && s.tasks[g].phase.Collecting? && AllDone(s.tasks[g].phase.members) && s.tasks[g].waves && uncertain
      then BatchRange(s.tasks[g]) else {}
    case _ => {}
  }

  function BatchRange(task: Task): set<nat> {
    Range(task.start + task.offset, task.start + task.offset + BatchSize(task))
  }

  function Doubtful(config: StreamConfig, events: seq<Event>): set<nat> {
    if events == [] then {}
    else
      var (front, last) := (events[..|events| - 1], events[|events| - 1]);
      Doubtful(config, front) + Doubts(Execute(config, front), last)
  }

  ghost predicate Clear(doubts: set<nat>, low: nat, high: nat) {
    forall i: nat :: low <= i < high ==> i !in doubts
  }

  predicate Unsafe(member: Member) {
    member.Done? && !member.outcome.Safe()
  }

  ghost predicate WavesTold(history: seq<Wave>, doubts: set<nat>) {
    forall w :: 0 <= w < |history| ==> (history[w].released <==> Clear(doubts, history[w].low, history[w].high))
  }

  /** What is in doubt shows where the task stands. */
  ghost predicate DoubtTold(task: Task, doubts: set<nat>) {
    var low := task.start + task.offset;
    && WavesTold(task.history, doubts) && Clear(doubts, low + BatchSize(task), task.stop)
    && match task.phase
       case Collecting(members) => forall k: nat :: k < |members| ==> (PlanOf(task, k) in doubts <==> Unsafe(members[k]))
       case Settling(observed, uncertain) => ProvenSafe(observed) && !uncertain <==> Clear(doubts, low, low + |observed|)
       case _ => Clear(doubts, low, low + BatchSize(task))
  }

  lemma DoubtSame(task: Task, doubts: set<nat>, now: set<nat>)
    requires DoubtTold(task, doubts) && HistoryBelow(task.history, task.start, task.start + task.offset)
    requires task.start + task.offset + BatchSize(task) <= task.stop
    requires forall i: nat :: task.start <= i < task.stop ==> (i in doubts <==> i in now)
    ensures DoubtTold(task, now)
  {
    hide ProvenSafe, Unsafe;
    forall low: nat, high: nat | task.start <= low && high <= task.stop ensures Clear(doubts, low, high) <==> Clear(now, low, high) {
    }
    if task.phase.Collecting? {
      forall k: nat | k < |task.phase.members| ensures PlanOf(task, k) in now <==> Unsafe(task.phase.members[k]) {
        assert PlanOf(task, k) in doubts <==> PlanOf(task, k) in now;
      }
    }
  }

  /** A task that neither collects nor settles before or after, and whose waves stay. */
  lemma DoubtMoves(task: Task, next: Task, doubts: set<nat>)
    requires DoubtTold(task, doubts) && next.start == task.start && next.stop == task.stop && next.history == task.history
    requires next.offset == task.offset && !task.phase.Collecting? && !task.phase.Settling?
    requires task.start + task.offset + BatchSize(next) <= task.stop
    requires next.phase.Collecting? ==> forall k :: 0 <= k < |next.phase.members| ==> next.phase.members[k] == Waiting
    requires !next.phase.Settling?
    ensures DoubtTold(next, doubts)
  {
    hide ProvenSafe, WavesTold;
  }

  lemma FailedDoubt(task: Task, doubts: set<nat>)
    requires DoubtTold(task, doubts) && task.phase.Opening? && HistoryBelow(task.history, task.start, task.start + task.offset)
    requires 0 < task.phase.size && task.start + task.offset + task.phase.size <= task.stop
    ensures DoubtTold(task.(phase := Settling(Repeat(UNRESOLVED, task.phase.size), true)), doubts + BatchRange(task))
  {
    hide ProvenSafe, WavesTold;
    var low, now := task.start + task.offset, doubts + BatchRange(task);
    assert low in now;
    assert !Clear(now, low, low + task.phase.size);
    WavesSame(task.history, task.start, low, doubts, now);
  }

  lemma WavesSame(history: seq<Wave>, start: nat, low: nat, doubts: set<nat>, now: set<nat>)
    requires WavesTold(history, doubts) && HistoryBelow(history, start, low)
    requires forall i: nat :: start <= i < low ==> (i in doubts <==> i in now)
    ensures WavesTold(history, now)
  {
    forall w | 0 <= w < |history| ensures Clear(doubts, history[w].low, history[w].high) <==> Clear(now, history[w].low, history[w].high) {
      assert start <= history[w].low && history[w].high <= low;
    }
  }

  lemma MemberDoubt(task: Task, k: nat, member: Member, doubts: set<nat>)
    requires DoubtTold(task, doubts) && task.phase.Collecting? && k < |task.phase.members| && !task.phase.members[k].Done?
    requires HistoryBelow(task.history, task.start, task.start + task.offset)
    ensures DoubtTold(task.(phase := Collecting(task.phase.members[k := member])),
                      if Unsafe(member) then doubts + {PlanOf(task, k)} else doubts)
  {
    hide ProvenSafe, WavesTold;
    var next := task.(phase := Collecting(task.phase.members[k := member]));
    var now := if Unsafe(member) then doubts + {PlanOf(task, k)} else doubts;
    WavesSame(task.history, task.start, task.start + task.offset, doubts, now);
    forall j: nat | j < |next.phase.members| ensures PlanOf(next, j) in now <==> Unsafe(next.phase.members[j]) {
      assert PlanOf(task, j) in doubts <==> Unsafe(task.phase.members[j]);
    }
  }

  /** The batch has ended: its outcomes are proven safe exactly if none of its plans is in doubt. */
  lemma EndedClear(task: Task, doubts: set<nat>)
    requires DoubtTold(task, doubts) && task.phase.Collecting? && AllDone(task.phase.members)
    ensures var low := task.start + task.offset;
            ProvenSafe(Outcomes(task.phase.members)) <==> Clear(doubts, low, low + |task.phase.members|)
  {
    hide WavesTold, Outcome.Safe;
    var low, members := task.start + task.offset, task.phase.members;
    if ProvenSafe(Outcomes(members)) {
      forall i: nat | low <= i < low + |members| ensures i !in doubts {
        assert PlanOf(task, i - low) in doubts <==> Unsafe(members[i - low]);
        assert Outcomes(members)[i - low].Safe();
      }
    }
    if Clear(doubts, low, low + |members|) {
      forall k: nat | k < |members| ensures Outcomes(members)[k].Safe() {
        assert PlanOf(task, k) in doubts <==> Unsafe(members[k]);
        assert PlanOf(task, k) == low + k;
      }
    }
  }

  lemma EndedDoubt(task: Task, doubts: set<nat>, uncertain: bool)
    requires DoubtTold(task, doubts) && task.phase.Collecting? && AllDone(task.phase.members) && |task.phase.members| > 0
    requires HistoryBelow(task.history, task.start, task.start + task.offset)
    requires task.start + task.offset + |task.phase.members| <= task.stop
    ensures DoubtTold(task.(phase := Settling(Outcomes(task.phase.members), uncertain)),
                      if uncertain then doubts + BatchRange(task) else doubts)
  {
    hide ProvenSafe, WavesTold, AllDone;
    var low, now := task.start + task.offset, if uncertain then doubts + BatchRange(task) else doubts;
    EndedClear(task, doubts);
    WavesSame(task.history, task.start, low, doubts, now);
    if uncertain {
      assert low in now;
    }
  }

  lemma CompletedDoubt(task: Task, next: Task, doubts: set<nat>)
    requires DoubtTold(task, doubts) && task.phase.Collecting? && next.phase == Complete
    requires next.start == task.start && next.stop == task.stop && next.history == task.history
    requires next.offset == task.offset + |task.phase.members|
    ensures DoubtTold(next, doubts)
  {
    hide WavesTold, Unsafe;
  }

  lemma SettledDoubt(plans: seq<Plan>, task: Task, doubts: set<nat>)
    requires DoubtTold(task, doubts) && task.phase.Settling? && task.start + task.offset + |task.phase.observed| <= |plans|
    ensures DoubtTold(SettledTask(plans, task), doubts)
  {
    hide ProvenSafe, Identified, Doubted;
    var next := SettledTask(plans, task);
    assert next.history[..|task.history|] == task.history;
  }

  ghost predicate AllDoubtTold(s: Stream, doubts: set<nat>) {
    && (forall g :: 0 <= g < |s.tasks| ==> DoubtTold(s.tasks[g], doubts))
    && forall i :: i in doubts ==> i < |s.plans|
  }

  lemma HistoryInPlace(config: StreamConfig, s: Stream, g: nat)
    requires Sound(config, s) && g < |s.tasks|
    ensures var task := s.tasks[g];
            && HistoryBelow(task.history, task.start, task.start + task.offset)
            && task.start + task.offset + BatchSize(task) <= task.stop <= |s.plans| && task.start < task.stop
            && (task.phase == Queued ==> task.offset == 0)
            && (task.phase.Collecting? ==> |task.phase.members| > 0) && (task.phase.Opening? ==> task.phase.size > 0)
  {
    hide Sound, Split, GoodWave, CalledOff, IdentifiedBy, Marks, WholeWaves, HistoryBelow;
    SoundTask(config, s, g);
  }

  /** Task g changes, and no doubt outside its plans. */
  lemma OneDoubts(config: StreamConfig, s: Stream, t: Stream, g: nat, doubts: set<nat>, now: set<nat>)
    requires Sound(config, s) && AllDoubtTold(s, doubts) && g < |s.tasks| == |t.tasks| && t.plans == s.plans
    requires t.tasks == s.tasks[g := t.tasks[g]] && DoubtTold(t.tasks[g], now)
    requires doubts <= now && forall i :: i in now && i !in doubts ==> s.tasks[g].start <= i < s.tasks[g].stop
    ensures AllDoubtTold(t, now)
  {
    hide Sound, DoubtTold, HistoryBelow;
    HistoryInPlace(config, s, g);
    forall h | 0 <= h < |s.tasks| ensures DoubtTold(t.tasks[h], now) {
      if h != g {
        HistoryInPlace(config, s, h);
        TasksApart(config, s, g, h);
        DoubtSame(s.tasks[h], doubts, now);
      }
    }
  }

  lemma SameDoubts(s: Stream, t: Stream, doubts: set<nat>)
    requires AllDoubtTold(s, doubts) && t.tasks == s.tasks && t.plans == s.plans
    ensures AllDoubtTold(t, doubts)
  {
    hide DoubtTold;
  }

  lemma EnterDoubts(config: StreamConfig, s: Stream, g: nat, doubts: set<nat>)
    requires Sound(config, s) && g < |s.tasks| && AllDoubtTold(s, doubts)
    ensures AllDoubtTold(Enter(config, s, g), doubts)
  {
    hide Sound, DoubtTold, Enter, HistoryBelow, AllDoubtTold;
    EnterIs(config, s, g);
    HistoryInPlace(config, s, g);
    var t := Enter(config, s, g);
    if t != s {
      TaskDoubt(s, g, doubts);
      DoubtMoves(s.tasks[g], t.tasks[g], doubts);
      OneDoubts(config, s, t, g, doubts, doubts);
    }
  }

  lemma TaskDoubt(s: Stream, g: nat, doubts: set<nat>)
    requires AllDoubtTold(s, doubts) && g < |s.tasks|
    ensures DoubtTold(s.tasks[g], doubts)
  {
    hide DoubtTold;
  }

  lemma ChooseDoubts(config: StreamConfig, s: Stream, g: nat, doubts: set<nat>)
    requires Sound(config, s) && g < |s.tasks| && AllDoubtTold(s, doubts)
    ensures AllDoubtTold(Choose(config, s, g), doubts)
  {
    hide Sound, DoubtTold, HistoryBelow, AllDoubtTold, Chosen;
    HistoryInPlace(config, s, g);
    var task, t := s.tasks[g], Choose(config, s, g);
    if task.phase == Choosing {
      ChosenBatch(config, s.plans, s.cancelled, task);
      TaskDoubt(s, g, doubts);
      DoubtMoves(task, t.tasks[g], doubts);
      OneDoubts(config, s, t, g, doubts, doubts);
    }
  }

  lemma ChosenBatch(config: StreamConfig, plans: seq<Plan>, cancelled: bool, task: Task)
    requires task.start + task.offset <= task.stop <= |plans|
    ensures var next := Chosen(config, plans, cancelled, task);
            && next.start == task.start && next.stop == task.stop && next.history == task.history && next.offset == task.offset
            && !next.phase.Collecting? && !next.phase.Settling? && task.start + task.offset + BatchSize(next) <= task.stop
  {
    WaveInRange(config, plans, task.start + task.offset, task.stop, 0);
    hide WaveSize;
  }

  lemma {:induction false} WaveInRange(config: StreamConfig, plans: seq<Plan>, low: nat, stop: nat, taken: nat)
    requires low + taken <= stop <= |plans|
    ensures low + WaveSize(config, plans, low, stop, taken) <= stop
    decreases stop - taken
  {
    hide RangeFits;
    if !(low + taken == stop || taken == config.limits.maxWorkers
      || !RangeFits(map[], config.limits.capacities, plans, low, low + taken + 1)) {
      WaveInRange(config, plans, low, stop, taken + 1);
    }
  }

  lemma ReserveDoubts(config: StreamConfig, s: Stream, g: nat, doubts: set<nat>)
    requires Sound(config, s) && g < |s.tasks| && AllDoubtTold(s, doubts)
    ensures AllDoubtTold(Reserve(config, s, g), doubts)
  {
    hide Sound, DoubtTold, HistoryBelow, AllDoubtTold, RangeFits, CreditRange, Range;
    HistoryInPlace(config, s, g);
    var task, t := s.tasks[g], Reserve(config, s, g);
    if t.tasks == s.tasks {
      SameDoubts(s, t, doubts);
    } else {
      TaskDoubt(s, g, doubts);
      DoubtMoves(task, t.tasks[g], doubts);
      OneDoubts(config, s, t, g, doubts, doubts);
    }
  }

  lemma AdmittedDoubts(config: StreamConfig, s: Stream, g: nat, ok: bool, doubts: set<nat>)
    requires Sound(config, s) && g < |s.tasks| && AllDoubtTold(s, doubts)
    ensures AllDoubtTold(Admitted(s, g, ok), doubts + Doubts(s, HookReturned(g, ok)))
  {
    hide Sound, DoubtTold, HistoryBelow, AllDoubtTold;
    HistoryInPlace(config, s, g);
    var task, t, now := s.tasks[g], Admitted(s, g, ok), doubts + Doubts(s, HookReturned(g, ok));
    assert doubts + {} == doubts;
    if !task.phase.Opening? {
      SameDoubts(s, t, doubts);
    } else {
      TaskDoubt(s, g, doubts);
      if ok {
        DoubtMoves(task, t.tasks[g], doubts);
      } else {
        FailedDoubt(task, doubts);
      }
      OneDoubts(config, s, t, g, doubts, now);
    }
  }

  lemma MemberDoubts(config: StreamConfig, s: Stream, t: Stream, g: nat, k: nat, member: Member, doubts: set<nat>)
    requires Sound(config, s) && AllDoubtTold(s, doubts)
    requires g < |s.tasks| && s.tasks[g].phase.Collecting? && k < |s.tasks[g].phase.members|
    requires !s.tasks[g].phase.members[k].Done? && t.tasks == PutMember(s, g, k, member).tasks && t.plans == s.plans
    ensures AllDoubtTold(t, if Unsafe(member) then doubts + {PlanOf(s.tasks[g], k)} else doubts)
  {
    hide Sound, DoubtTold, HistoryBelow, AllDoubtTold, Unsafe;
    HistoryInPlace(config, s, g);
    TaskDoubt(s, g, doubts);
    MemberDoubt(s.tasks[g], k, member, doubts);
    OneDoubts(config, s, t, g, doubts, if Unsafe(member) then doubts + {PlanOf(s.tasks[g], k)} else doubts);
  }

  lemma StartDoubts(config: StreamConfig, s: Stream, g: nat, k: nat, doubts: set<nat>)
    requires Sound(config, s) && AllDoubtTold(s, doubts)
    ensures AllDoubtTold(Start(config, s, g, k), doubts)
  {
    hide Sound, AllDoubtTold, PutMember;
    var t := Start(config, s, g, k);
    if At(s.tasks, g, k, Waiting) && t != s {
      PutMemberPlans(s, g, k, Room);
      PutMemberPlans(s, g, k, Working);
      PutMemberPlans(s, g, k, Done(NOT_ADMITTED));
      MemberDoubts(config, s, t, g, k,
                   if !s.tasks[g].waves then Room else if s.cancelled then Done(NOT_ADMITTED) else Working, doubts);
    }
  }

  lemma GrantDoubts(config: StreamConfig, s: Stream, g: nat, k: nat, doubts: set<nat>)
    requires Sound(config, s) && AllDoubtTold(s, doubts)
    ensures AllDoubtTold(Grant(config, s, g, k), doubts)
  {
    hide Sound, AllDoubtTold, PutMember, Fits;
    var t := Grant(config, s, g, k);
    if At(s.tasks, g, k, Room) && t != s {
      PutMemberPlans(s, g, k, Working);
      PutMemberPlans(s, g, k, Done(NOT_ADMITTED));
      MemberDoubts(config, s, t, g, k, if s.cancelled then Done(NOT_ADMITTED) else Working, doubts);
    }
  }

  lemma FinishDoubts(config: StreamConfig, s: Stream, g: nat, k: nat, outcome: Outcome, doubts: set<nat>)
    requires Sound(config, s) && AllDoubtTold(s, doubts)
    ensures AllDoubtTold(Finish(s, g, k, outcome), doubts + Doubts(s, Finished(g, k, outcome)))
  {
    hide Sound, AllDoubtTold, PutMember, Outcome.Safe;
    var t := Finish(s, g, k, outcome);
    if Reports(s, Finished(g, k, outcome)) {
      PutMemberPlans(s, g, k, Done(outcome));
      MemberDoubts(config, s, t, g, k, Done(outcome), doubts);
      assert doubts + {} == doubts;
    } else {
      assert doubts + {} == doubts;
    }
  }

  lemma GatheredDoubts(config: StreamConfig, s: Stream, g: nat, uncertain: bool, doubts: set<nat>)
    requires Sound(config, s) && g < |s.tasks| && AllDoubtTold(s, doubts)
    ensures AllDoubtTold(Gathered(s, g, uncertain), doubts + Doubts(s, BatchEnded(g, uncertain)))
  {
    hide Sound, DoubtTold, HistoryBelow, AllDoubtTold, AllDone, Identified;
    HistoryInPlace(config, s, g);
    var task, t, now := s.tasks[g], Gathered(s, g, uncertain), doubts + Doubts(s, BatchEnded(g, uncertain));
    if t == s {
      assert now == doubts;
    } else {
      TaskDoubt(s, g, doubts);
      if task.waves {
        EndedDoubt(task, doubts, uncertain);
        assert now == if uncertain then doubts + BatchRange(task) else doubts;
      } else {
        assert now == doubts;
        CompletedDoubt(task, t.tasks[g], doubts);
      }
      OneDoubts(config, s, t, g, doubts, now);
    }
  }

  lemma SettleDoubts(config: StreamConfig, s: Stream, g: nat, doubts: set<nat>)
    requires Sound(config, s) && g < |s.tasks| && AllDoubtTold(s, doubts)
    ensures AllDoubtTold(Settle(s, g), doubts)
  {
    hide Sound, DoubtTold, HistoryBelow, AllDoubtTold, Settle, SettledLedgers, SettledTask;
    HistoryInPlace(config, s, g);
    if s.tasks[g].phase.Settling? {
      SettleIs(s, g);
      LedgersMoved(s, s.tasks[g]);
      TaskDoubt(s, g, doubts);
      SettledDoubt(s.plans, s.tasks[g], doubts);
      OneDoubts(config, s, Settle(s, g), g, doubts, doubts);
    } else {
      SettleIdle(s, g);
    }
  }

  lemma HandBackDoubts(config: StreamConfig, s: Stream, g: nat, doubts: set<nat>)
    requires Sound(config, s) && g < |s.tasks| && AllDoubtTold(s, doubts)
    ensures AllDoubtTold(HandBack(s, g), doubts)
  {
    hide Sound, DoubtTold, HistoryBelow, AllDoubtTold;
    HistoryInPlace(config, s, g);
    var t := HandBack(s, g);
    if t != s {
      TaskDoubt(s, g, doubts);
      DoubtMoves(s.tasks[g], t.tasks[g], doubts);
      OneDoubts(config, s, t, g, doubts, doubts);
    }
  }

  lemma StepDoubts(config: StreamConfig, s: Stream, event: Event, doubts: set<nat>)
    requires Sound(config, s) && AllDoubtTold(s, doubts) && !event.Submission?
    ensures AllDoubtTold(Step(config, s, event), doubts + Doubts(s, event))
  {
    hide Sound, AllDoubtTold, Enter, Choose, Reserve, Admitted, Start, Grant, Finish, Gathered, Settle, HandBack, AllReturned;
    hide AllDone, BatchRange, Reports;
    assert doubts + {} == doubts;
    var t := Step(config, s, event);
    match event
    case Submission(_, _) =>
    case Entering(g) => if g < |s.tasks| { EnterDoubts(config, s, g, doubts); }
    case LoopHead(g) => if g < |s.tasks| { ChooseDoubts(config, s, g, doubts); }
    case Reserved(g) =>
      if g < |s.tasks| && s.tasks[g].phase.Reserving? {
        ReserveDoubts(config, s, g, doubts);
        AttemptDoubts(s, OfWave(g), Reserve(config, s, g), doubts);
      }
    case HookReturned(g, ok) => if g < |s.tasks| { AdmittedDoubts(config, s, g, ok, doubts); }
    case Started(g, k) => StartDoubts(config, s, g, k, doubts);
    case Granted(g, k) =>
      if At(s.tasks, g, k, Room) {
        GrantDoubts(config, s, g, k, doubts);
        AttemptDoubts(s, OfPlan(g, k), Grant(config, s, g, k), doubts);
      }
    case Finished(g, k, outcome) =>
      FinishDoubts(config, s, g, k, outcome, doubts);
      NotifiedDoubts(s, Finish(s, g, k, outcome), doubts + Doubts(s, event));
    case BatchEnded(g, uncertain) => if g < |s.tasks| { GatheredDoubts(config, s, g, uncertain, doubts); }
    case Settled(g) =>
      if g < |s.tasks| {
        SettleDoubts(config, s, g, doubts);
        NotifiedDoubts(s, Settle(s, g), doubts);
      }
    case Handed(g) => if g < |s.tasks| { HandBackDoubts(config, s, g, doubts); }
    case Cancellation => SameDoubts(s, t, doubts);
    case Pausing => SameDoubts(s, t, doubts);
    case Resuming => SameDoubts(s, t, doubts);
    case Closing => SameDoubts(s, t, doubts);
  }

  lemma AttemptDoubts(s: Stream, waiter: Waiter, t: Stream, doubts: set<nat>)
    requires AllDoubtTold(s, doubts) && AllDoubtTold(t, doubts)
    ensures AllDoubtTold(Attempt(s, waiter, t), doubts)
  {
    hide DoubtTold;
  }

  lemma NotifiedDoubts(s: Stream, t: Stream, doubts: set<nat>)
    requires AllDoubtTold(t, doubts)
    ensures AllDoubtTold(Notified(s, t), doubts)
  {
    hide DoubtTold;
  }

  lemma NewTaskDoubt(task: Task, doubts: set<nat>)
    requires task.phase == Queued && task.history == [] && task.offset == 0 && forall i :: i in doubts ==> i < task.start
    ensures DoubtTold(task, doubts)
  {
  }

  lemma SubmitDoubts(config: StreamConfig, s: Stream, plans: seq<Plan>, sequence: int, doubts: set<nat>)
    requires AllDoubtTold(s, doubts)
    ensures AllDoubtTold(Submit(config, s, plans, sequence), doubts)
  {
    hide DoubtTold, CheckSubmission, OwnersAfter;
    var t := Submit(config, s, plans, sequence);
    if CheckSubmission(config, s, plans, sequence) == None {
      NewTaskDoubt(t.tasks[|s.tasks|], doubts);
    }
  }

  lemma {:induction false} ExecuteDoubts(config: StreamConfig, events: seq<Event>)
    requires config.Valid() && GoodEvents(events)
    ensures AllDoubtTold(Execute(config, events), Doubtful(config, events))
  {
    hide Sound, Step, AllDoubtTold, Doubts, GoodEvent;
    if events == [] {
      NothingDoubted();
    } else {
      var front, last := events[..|events| - 1], events[|events| - 1];
      var s := Execute(config, front);
      ExecuteDoubts(config, front);
      ExecuteSound(config, front);
      if last.Submission? {
        SubmitDoubts(config, s, last.plans, last.sequence, Doubtful(config, front));
        SubmissionTells(config, s, last, map[]);
        NoDoubt(s, last);
        assert Doubtful(config, front) + {} == Doubtful(config, front);
      } else {
        StepDoubts(config, s, last, Doubtful(config, front));
      }
    }
  }

  lemma NothingDoubted()
    ensures AllDoubtTold(Opened(), {})
  {
  }

  lemma NoDoubt(s: Stream, event: Event)
    requires event.Submission?
    ensures Doubts(s, event) == {}
  {
  }

  /** A settled wave was released exactly if nothing left one of its plans in doubt: every episode that ran proved its
      cleanup, its admission hook did not fail, and its closing was certain. */
  lemma WaveReleasedIff(config: StreamConfig, events: seq<Event>, g: nat, w: nat)
    requires config.Valid() && GoodEvents(events)
    requires g < |Execute(config, events).tasks| && w < |Execute(config, events).tasks[g].history|
    ensures var wave := Execute(config, events).tasks[g].history[w];
            wave.released <==> forall i: nat :: wave.low <= i < wave.high ==> i !in Doubtful(config, events)
  {
    hide Execute, Doubtful;
    ExecuteDoubts(config, events);
    assert DoubtTold(Execute(config, events).tasks[g], Doubtful(config, events));
  }

  // ----- why a stream is cancelled

  /** Somebody cancels; an episode ends in doubt, on infrastructure or up for review; an admission hook fails; a wave
      that is in doubt settles. */
  ghost predicate Cancels(s: Stream, event: Event) {
    match event
    case Cancellation => true
    case Finished(_, _, outcome) =>
      Reports(s, event) && (!outcome.Safe() || outcome.infrastructure || outcome.reviewRequired)
    case HookReturned(g, ok) => g < |s.tasks| && s.tasks[g].phase.Opening? && !ok
    case Settled(g) =>
      && g < |s.tasks| && s.tasks[g].phase.Settling?
      && (s.tasks[g].phase.uncertain || exists k :: 0 <= k < |s.tasks[g].phase.observed| && !s.tasks[g].phase.observed[k].Safe())
    case _ => false
  }

  ghost predicate CancelledBy(config: StreamConfig, events: seq<Event>) {
    if events == [] then false
    else
      var front := events[..|events| - 1];
      CancelledBy(config, front) || Cancels(Execute(config, front), events[|events| - 1])
  }

  lemma SettleCancels(config: StreamConfig, s: Stream, g: nat)
    requires Sound(config, s) && g < |s.tasks|
    ensures Settle(s, g).cancelled <==> s.cancelled || Cancels(s, Settled(g))
  {
    hide Sound, Settle, SettledTask, Outcome.Safe;
    ResultsAtOffset(config, s, g);
    if s.tasks[g].phase.Settling? {
      SettleIs(s, g);
      SettledCancels(s, s.tasks[g]);
    } else {
      SettleIdle(s, g);
    }
  }

  lemma SettledCancels(s: Stream, task: Task)
    requires task.phase.Settling? && task.start + task.offset + |task.phase.observed| <= |s.plans|
    ensures SettledLedgers(s, task).cancelled <==>
              s.cancelled || task.phase.uncertain || exists k :: 0 <= k < |task.phase.observed| && !task.phase.observed[k].Safe()
  {
    hide Outcome.Safe, CreditRange, DebitRange, Range;
  }

  lemma StepCancels(config: StreamConfig, s: Stream, event: Event)
    requires Sound(config, s)
    ensures Step(config, s, event).cancelled <==> s.cancelled || Cancels(s, event)
  {
    hide Sound, Submit, Enter, Choose, Reserve, Admitted, Start, Grant, Finish, Gathered, Settle, HandBack, AllReturned, Reports;
    match event
    case Submission(plans, sequence) => SubmitFlag(config, s, plans, sequence);
    case Entering(g) => if g < |s.tasks| { EnterFlag(config, s, g); }
    case LoopHead(g) => if g < |s.tasks| { ChooseFlag(config, s, g); }
    case Reserved(g) => if g < |s.tasks| { ReserveFlag(config, s, g); }
    case HookReturned(g, ok) => if g < |s.tasks| { AdmittedFlag(s, g, ok); }
    case Started(g, k) => StartFlag(config, s, g, k);
    case Granted(g, k) => GrantFlag(config, s, g, k);
    case Finished(g, k, outcome) => FinishFlag(s, g, k, outcome);
    case BatchEnded(g, uncertain) => if g < |s.tasks| { GatheredFlag(s, g, uncertain); }
    case Settled(g) => if g < |s.tasks| { SettleCancels(config, s, g); }
    case Handed(g) => if g < |s.tasks| { HandBackFlag(s, g); }
    case Cancellation =>
    case Pausing =>
    case Resuming =>
    case Closing =>
  }

  lemma SubmitFlag(config: StreamConfig, s: Stream, plans: seq<Plan>, sequence: int)
    ensures Submit(config, s, plans, sequence).cancelled == s.cancelled
  {
    hide CheckSubmission, OwnersAfter;
  }

  lemma EnterFlag(config: StreamConfig, s: Stream, g: nat)
    requires g < |s.tasks|
    ensures Enter(config, s, g).cancelled == s.cancelled
  {
  }

  lemma ChooseFlag(config: StreamConfig, s: Stream, g: nat)
    requires g < |s.tasks|
    ensures Choose(config, s, g).cancelled == s.cancelled
  {
    hide Chosen;
  }

  lemma ReserveFlag(config: StreamConfig, s: Stream, g: nat)
    requires g < |s.tasks|
    ensures Reserve(config, s, g).cancelled == s.cancelled
  {
    hide RangeFits, CreditRange, Range;
  }

  lemma AdmittedFlag(s: Stream, g: nat, ok: bool)
    requires g < |s.tasks|
    ensures Admitted(s, g, ok).cancelled <==> s.cancelled || (s.tasks[g].phase.Opening? && !ok)
  {
  }

  lemma StartFlag(config: StreamConfig, s: Stream, g: nat, k: nat)
    ensures Start(config, s, g, k).cancelled == s.cancelled
  {
    hide PutMember;
    if At(s.tasks, g, k, Waiting) {
      PutMemberPlans(s, g, k, Room);
      PutMemberPlans(s, g, k, Working);
      PutMemberPlans(s, g, k, Done(NOT_ADMITTED));
    }
  }

  lemma GrantFlag(config: StreamConfig, s: Stream, g: nat, k: nat)
    ensures Grant(config, s, g, k).cancelled == s.cancelled
  {
    hide Fits, Credit;
  }

  lemma FinishFlag(s: Stream, g: nat, k: nat, outcome: Outcome)
    ensures Finish(s, g, k, outcome).cancelled <==>
              s.cancelled || (Reports(s, Finished(g, k, outcome)) && (!outcome.Safe() || outcome.infrastructure || outcome.reviewRequired))
  {
    hide Outcome.Safe, Credit, Debit;
  }

  lemma GatheredFlag(s: Stream, g: nat, uncertain: bool)
    requires g < |s.tasks|
    ensures Gathered(s, g, uncertain).cancelled == s.cancelled
  {
    hide AllDone, Identified, Put;
    forall task ensures Put(s, g, task).cancelled == s.cancelled {
      PutFlag(s, g, task);
    }
  }

  lemma PutFlag(s: Stream, g: nat, task: Task)
    requires g < |s.tasks|
    ensures Put(s, g, task).cancelled == s.cancelled
  {
  }

  lemma HandBackFlag(s: Stream, g: nat)
    requires g < |s.tasks|
    ensures HandBack(s, g).cancelled == s.cancelled
  {
  }

  /** A stream is cancelled exactly if somebody or something has cancelled it. */
  lemma {:induction false} CancelledIff(config: StreamConfig, events: seq<Event>)
    requires config.Valid() && GoodEvents(events)
    ensures Execute(config, events).cancelled <==> CancelledBy(config, events)
  {
    hide Sound, Step, Cancels, GoodEvent;
    if events != [] {
      var front := events[..|events| - 1];
      CancelledIff(config, front);
      ExecuteSound(config, front);
      StepCancels(config, Execute(config, front), events[|events| - 1]);
    }
  }
}
