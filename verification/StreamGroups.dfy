/** Steps other than submissions leave the groups of a stream where they were. */
module StreamGroups {
  import opened Resources
  import opened CoordinatorSpec
  import opened StreamSpec
  import opened StreamTheorems

  /** No group has come, and nobody has claimed an executor. */
  ghost predicate SameGroups(s: Stream, t: Stream) {
    && t.plans == s.plans && t.owners == s.owners && |t.tasks| == |s.tasks|
    && forall g :: 0 <= g < |s.tasks| ==> t.tasks[g].start == s.tasks[g].start && t.tasks[g].waves == s.tasks[g].waves
  }

  lemma PutSame(s: Stream, g: nat, task: Task)
    requires g < |s.tasks| && task.start == s.tasks[g].start && task.waves == s.tasks[g].waves
    ensures SameGroups(s, Put(s, g, task))
  {
  }

  lemma PutMemberSame(s: Stream, g: nat, k: nat, member: Member)
    requires g < |s.tasks| && s.tasks[g].phase.Collecting? && k < |s.tasks[g].phase.members|
    ensures SameGroups(s, PutMember(s, g, k, member))
  {
  }

  lemma SameSame(s: Stream)
    ensures SameGroups(s, s)
  {
  }

  lemma EnterSame(config: StreamConfig, s: Stream, g: nat)
    requires g < |s.tasks|
    ensures SameGroups(s, Enter(config, s, g))
  {
    hide SameGroups, Put, Enter;
    var task := s.tasks[g];
    SameSame(s);
    EnterIs(config, s, g);
    if task.start <= task.stop {
      var next := task.(phase := if task.waves then Choosing else Collecting(AllWaiting(task.stop - task.start)));
      PutSame(s, g, next);
      PutIs(s, g, next);
      OnlyGroupsMatter(s, Put(s, g, next), Enter(config, s, g));
    }
  }

  lemma ChooseSame(config: StreamConfig, s: Stream, g: nat)
    requires g < |s.tasks|
    ensures SameGroups(s, Choose(config, s, g))
  {
    hide SameGroups, Put, Chosen;
    var task := s.tasks[g];
    SameSame(s);
    if task.start + task.offset <= task.stop <= |s.plans| {
      var next := Chosen(config, s.plans, s.cancelled, task);
      ChosenGroup(config, s.plans, s.cancelled, task);
      PutSame(s, g, next);
      OnlyGroupsMatter(s, Put(s, g, next), Choose(config, s, g));
    }
  }

  lemma ChosenGroup(config: StreamConfig, plans: seq<Plan>, cancelled: bool, task: Task)
    requires task.start + task.offset <= task.stop <= |plans|
    ensures var next := Chosen(config, plans, cancelled, task); next.start == task.start && next.waves == task.waves
  {
    hide WaveSize;
  }

  lemma ReserveSame(config: StreamConfig, s: Stream, g: nat)
    requires g < |s.tasks|
    ensures SameGroups(s, Reserve(config, s, g))
  {
    hide SameGroups, Put, RangeFits, CreditRange, Range;
    var task := s.tasks[g];
    SameSame(s);
    if task.phase.Reserving? {
      var admitted := task.(phase := Opening(task.phase.size));
      PutSame(s, g, task.(phase := Choosing));
      PutSame(s, g, admitted);
      OnlyGroupsMatter(s, Put(s, g, admitted), Reserve(config, s, g));
    }
  }

  lemma AdmittedSame(s: Stream, g: nat, ok: bool)
    requires g < |s.tasks|
    ensures SameGroups(s, Admitted(s, g, ok))
  {
    hide SameGroups, Put;
    var task := s.tasks[g];
    SameSame(s);
    if task.phase.Opening? {
      var failed := task.(phase := Settling(Repeat(UNRESOLVED, task.phase.size), true));
      PutSame(s, g, task.(phase := Collecting(AllWaiting(task.phase.size))));
      PutSame(s, g, failed);
      OnlyGroupsMatter(s, Put(s, g, failed), Admitted(s, g, ok));
    }
  }

  lemma StartSame(config: StreamConfig, s: Stream, g: nat, k: nat)
    ensures SameGroups(s, Start(config, s, g, k))
  {
    hide PutMember, SameGroups, PlanOf;
    SameSame(s);
    if At(s.tasks, g, k, Waiting) {
      PutMemberSame(s, g, k, Room);
      PutMemberSame(s, g, k, Working);
      PutMemberSame(s, g, k, Done(NOT_ADMITTED));
      OnlyGroupsMatter(s, PutMember(s, g, k, Room), Start(config, s, g, k));
      OnlyGroupsMatter(s, PutMember(s, g, k, Working), Start(config, s, g, k));
    }
  }

  lemma OnlyGroupsMatter(s: Stream, t: Stream, u: Stream)
    requires SameGroups(s, t)
    ensures u.plans == t.plans && u.owners == t.owners && u.tasks == t.tasks ==> SameGroups(s, u)
  {
  }

  lemma GrantSame(config: StreamConfig, s: Stream, g: nat, k: nat)
    ensures SameGroups(s, Grant(config, s, g, k))
  {
    hide Fits, Credit, PutMember, SameGroups, PlanOf;
    SameSame(s);
    if At(s.tasks, g, k, Room) {
      PutMemberSame(s, g, k, Working);
      PutMemberSame(s, g, k, Done(NOT_ADMITTED));
      OnlyGroupsMatter(s, PutMember(s, g, k, Working), Grant(config, s, g, k));
      OnlyGroupsMatter(s, PutMember(s, g, k, Done(NOT_ADMITTED)), Grant(config, s, g, k));
    }
  }

  lemma FinishSame(s: Stream, g: nat, k: nat, outcome: Outcome)
    ensures SameGroups(s, Finish(s, g, k, outcome))
  {
    hide Credit, Debit, PutMember, SameGroups, PlanOf, Outcome.Safe;
    SameSame(s);
    if At(s.tasks, g, k, Working) {
      PutMemberSame(s, g, k, Done(outcome));
      OnlyGroupsMatter(s, PutMember(s, g, k, Done(outcome)), Finish(s, g, k, outcome));
    }
  }

  lemma GatheredSame(s: Stream, g: nat, uncertain: bool)
    requires g < |s.tasks|
    ensures SameGroups(s, Gathered(s, g, uncertain))
  {
    hide SameGroups, Put, AllDone, Outcomes, Identified;
    var task := s.tasks[g];
    SameSame(s);
    if task.phase.Collecting? && AllDone(task.phase.members)
      && task.start + task.offset + |task.phase.members| <= |s.plans|
    {
      var observed := Outcomes(task.phase.members);
      var over := task.(phase := Complete, offset := task.offset + |observed|,
                        results := task.results + Identified(s.plans, task.start + task.offset, observed));
      PutSame(s, g, task.(phase := Settling(observed, uncertain)));
      PutSame(s, g, over);
      OnlyGroupsMatter(s, Put(s, g, over), Gathered(s, g, uncertain));
    }
  }

  lemma SettleSame(s: Stream, g: nat)
    requires g < |s.tasks|
    ensures SameGroups(s, Settle(s, g))
  {
    hide *;
    var task := s.tasks[g];
    SameSame(s);
    if task.phase.Settling? && task.start + task.offset + |task.phase.observed| <= |s.plans| {
      SettleIs(s, g);
      SettledGroup(s.plans, task);
      LedgersMoved(s, task);
      PutSame(s, g, SettledTask(s.plans, task));
      PutIs(s, g, SettledTask(s.plans, task));
      OnlyGroupsMatter(s, Put(s, g, SettledTask(s.plans, task)), Settle(s, g));
    } else {
      SettleIdle(s, g);
    }
  }

  lemma SettledGroup(plans: seq<Plan>, task: Task)
    requires task.phase.Settling? && task.start + task.offset + |task.phase.observed| <= |plans|
    ensures SettledTask(plans, task).start == task.start && SettledTask(plans, task).waves == task.waves
  {
    hide Identified, Doubted, ProvenSafe;
  }

  lemma PutIs(s: Stream, g: nat, task: Task)
    requires g < |s.tasks|
    ensures Put(s, g, task) == s.(tasks := s.tasks[g := task])
  {
  }

  lemma HandBackSame(s: Stream, g: nat)
    requires g < |s.tasks|
    ensures SameGroups(s, HandBack(s, g))
  {
    hide SameGroups, Put;
    var returned := s.tasks[g].(phase := Returned);
    SameSame(s);
    PutSame(s, g, returned);
    OnlyGroupsMatter(s, Put(s, g, returned), HandBack(s, g));
  }

  lemma AttemptSame(s: Stream, waiter: Waiter, t: Stream)
    requires SameGroups(s, t)
    ensures SameGroups(s, Attempt(s, waiter, t))
  {
  }

  lemma NotifiedSame(s: Stream, t: Stream)
    requires SameGroups(s, t)
    ensures SameGroups(s, Notified(s, t))
  {
  }

  /** Only submissions bring groups and claims. */
  lemma StepSameGroups(config: StreamConfig, s: Stream, event: Event)
    requires !event.Submission?
    ensures SameGroups(s, Step(config, s, event))
  {
    hide SameGroups, Attempt, Notified, AllReturned;
    hide Enter, Choose, Reserve, Admitted, Start, Grant, Finish, Gathered, Settle, HandBack;
    SameSame(s);
    match event
    case Entering(g) => if g < |s.tasks| { EnterSame(config, s, g); }
    case LoopHead(g) => if g < |s.tasks| { ChooseSame(config, s, g); }
    case Reserved(g) =>
      if g < |s.tasks| {
        ReserveSame(config, s, g);
        AttemptSame(s, OfWave(g), Reserve(config, s, g));
      }
    case HookReturned(g, ok) => if g < |s.tasks| { AdmittedSame(s, g, ok); }
    case Started(g, k) => StartSame(config, s, g, k);
    case Granted(g, k) =>
      GrantSame(config, s, g, k);
      AttemptSame(s, OfPlan(g, k), Grant(config, s, g, k));
    case Finished(g, k, outcome) =>
      FinishSame(s, g, k, outcome);
      NotifiedSame(s, Finish(s, g, k, outcome));
    case BatchEnded(g, uncertain) => if g < |s.tasks| { GatheredSame(s, g, uncertain); }
    case Settled(g) =>
      if g < |s.tasks| {
        SettleSame(s, g);
        NotifiedSame(s, Settle(s, g));
      }
    case Handed(g) => if g < |s.tasks| { HandBackSame(s, g); }
    case _ => TasksSame(s, Step(config, s, event));
  }

  lemma TasksSame(s: Stream, t: Stream)
    requires t.plans == s.plans && t.tasks == s.tasks && t.owners == s.owners
    ensures SameGroups(s, t)
  {
  }
}
