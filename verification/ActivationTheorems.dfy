/** When a policy may be installed, and what a packet or a snapshot is worth. */
module ActivationTheorems {
  import opened Basics
  import opened ActivationSpec

  // ----- invariants

  /** A group is in flight exactly while its plans are prepared or executed. */
  ghost predicate InFlight(producer: Producer, active: bool) {
    active <==> producer.Planning? || producer.Executing?
  }

  /** Retained ids and the executing one are exactly those from the committed one to the next, unless the
      producer has failed. */
  ghost predicate Cursors(producer: Producer, committed: nat, next: nat, retained: map<nat, Packet>) {
    && committed <= next
    && (producer.Executing? ==> committed <= producer.id && producer.id + 1 == next)
    && (forall id :: id in retained ==> committed <= id < next)
    && (!producer.Failed? ==> forall id: nat :: committed <= id < next ==>
          (id in retained <==> !(producer.Executing? && producer.id == id)))
    && (producer.Executing? ==> producer.id !in retained)
  }

  /** Every packet was registered and completed under one policy. */
  ghost predicate OnePolicy(retained: map<nat, Packet>) {
    forall id :: id in retained ==> retained[id].registered == retained[id].completed
  }

  ghost predicate Increasing(installed: seq<nat>) {
    forall j, k :: 0 <= j < k < |installed| ==> installed[j] < installed[k]
  }

  /** The policy in force, the acknowledged one, and the ones installed so far. */
  ghost predicate Policies(p: Provider) {
    && p.installed != [] && Increasing(p.installed) && p.installed[|p.installed| - 1] == p.acknowledged
    && (p.producer.Executing? ==> p.producer.registered == p.policy == p.acknowledged)
    && (match p.control
        case Activating(prior) => prior == p.acknowledged < p.policy
        case Adopting => p.acknowledged < p.policy
        case _ => p.policy == p.acknowledged)
  }

  ghost predicate Quiet(p: Provider) {
    !p.active && p.paused && p.streamPaused
  }

  /** What each stage of a call, and an unspent receipt, guarantee. */
  ghost predicate Gates(p: Provider) {
    && (p.control == Draining ==> p.paused && !p.ready)
    && (p.control == ProvingDrain || p.control == Granting || p.control.Activating? || p.control == Adopting ==>
          Quiet(p) && !p.ready)
    && (p.ready ==> Quiet(p))
    && (p.timedOut ==> p.error)
    && (p.producer.Failed? ==> p.error)
  }

  /** No receipt is used twice, and every installed policy used one. */
  ghost predicate Receipts(p: Provider) {
    && p.spent + (if p.ready then 1 else 0) <= p.drains
    && |p.installed| - 1 + (if p.control.Activating? || p.control == Adopting then 1 else 0) <= p.spent
  }

  ghost predicate Sound(p: Provider, bound: nat) {
    && InFlight(p.producer, p.active) && Cursors(p.producer, p.committed, p.nextGroup, p.retained)
    && OnePolicy(p.retained) && Policies(p) && Gates(p) && Receipts(p) && |p.retained| <= bound
    && (p.active ==> |p.retained| < bound)
  }

  /** A provider may start from any gap-free mailbox. */
  ghost predicate GoodStart(p: Provider, bound: nat) {
    && p == Started(p.policy, p.committed, p.nextGroup, p.retained)
    && Cursors(Waiting, p.committed, p.nextGroup, p.retained) && OnePolicy(p.retained) && |p.retained| <= bound
  }

  // ----- each step

  lemma LeaseSound(p: Provider, bound: nat)
    requires Sound(p, bound)
    ensures Sound(Lease(p, bound), bound)
  {
    hide OnePolicy, Increasing;
  }

  lemma PlannedSound(p: Provider, bound: nat, registered: nat, wellFormed: bool)
    requires Sound(p, bound)
    ensures Sound(Planned(p, registered, wellFormed), bound)
  {
    hide OnePolicy, Increasing;
  }

  lemma AddedSize(retained: map<nat, Packet>, id: nat, packet: Packet)
    ensures |retained[id := packet]| <= |retained| + 1
  {
    assert retained[id := packet].Keys == retained.Keys + {id};
  }

  lemma CompletedCursors(p: Provider, packet: Packet)
    requires Cursors(p.producer, p.committed, p.nextGroup, p.retained) && p.producer.Executing?
    ensures Cursors(Waiting, p.committed, p.nextGroup, p.retained[p.producer.id := packet])
  {
  }

  lemma PacketIsOnePolicy(retained: map<nat, Packet>, id: nat, packet: Packet)
    requires OnePolicy(retained) && packet.registered == packet.completed
    ensures OnePolicy(retained[id := packet])
  {
  }

  lemma FailedSound(p: Provider, bound: nat)
    requires Sound(p, bound)
    ensures Sound(ProducerFails(p), bound)
  {
    hide OnePolicy, Increasing;
  }

  lemma CompletedSound(p: Provider, bound: nat, ok: bool, excluded: bool)
    requires Sound(p, bound)
    ensures Sound(Completed(p, ok, excluded), bound)
  {
    hide Cursors, OnePolicy, Increasing, ProducerFails;
    FailedSound(p, bound);
    if p.producer.Executing? {
      var packet := Packet(p.producer.registered, p.acknowledged, excluded, false);
      AddedSize(p.retained, p.producer.id, packet);
      CompletedCursors(p, packet);
      PacketIsOnePolicy(p.retained, p.producer.id, packet);
    }
  }

  lemma PauseSound(p: Provider, bound: nat, proven: bool)
    requires Sound(p, bound)
    ensures Sound(BeginPause(p), bound) && Sound(Drained(p), bound) && Sound(PauseEnds(p, proven).0, bound)
  {
    hide Cursors, OnePolicy, Increasing;
  }

  lemma ActivationSound(p: Provider, bound: nat, version: nat, acknowledged: bool)
    requires Sound(p, bound)
    ensures Sound(BeginActivation(p, version), bound) && Sound(ActivationEnds(p, acknowledged).0, bound)
  {
    hide Cursors, OnePolicy;
  }

  lemma ResumeSound(p: Provider, bound: nat, acknowledged: bool)
    requires Sound(p, bound)
    ensures Sound(BeginResume(p), bound) && Sound(ResumeEnds(p, acknowledged).0, bound)
  {
    hide Cursors, OnePolicy, Increasing;
  }

  lemma WrittenSound(p: Provider, bound: nat)
    requires Sound(p, bound)
    ensures Sound(Written(p), bound)
  {
    hide Cursors, OnePolicy;
  }

  lemma FlagsSound(p: Provider, bound: nat)
    requires Sound(p, bound)
    ensures Sound(TimeOut(p), bound) && Sound(p.(cancelled := true), bound) && Sound(p.(closing := true, paused := true), bound)
  {
    hide Cursors, OnePolicy, Increasing;
  }

  lemma GetSound(p: Provider, bound: nat)
    requires Sound(p, bound)
    ensures Sound(Get(p), bound)
  {
    hide OldestUndelivered, Policies, Gates, Receipts;
    var next := OldestUndelivered(p.retained, 0, p.nextGroup);
    if next.Some? && next.value in p.retained {
      var retained := p.retained[next.value := p.retained[next.value].(delivered := true)];
      assert retained.Keys == p.retained.Keys;
      assert |retained| == |retained.Keys|;
      MailboxMatters(p, bound, p.committed, retained);
    }
  }

  lemma CommitSound(p: Provider, bound: nat, stop: nat, consumed: set<nat>)
    requires Sound(p, bound)
    ensures Sound(Commit(p, stop, consumed), bound)
  {
    hide Policies, Gates, Receipts;
    if Committable(p, stop, consumed) {
      var left := map id | id in p.retained && stop <= id :: p.retained[id];
      assert left.Keys <= p.retained.Keys;
      SubsetSize(left.Keys, p.retained.Keys);
      MailboxMatters(p, bound, stop, left);
    }
  }

  /** Policies, gates and receipts do not depend on the mailbox. */
  lemma MailboxMatters(p: Provider, bound: nat, committed: nat, retained: map<nat, Packet>)
    requires Sound(p, bound)
    requires Cursors(p.producer, committed, p.nextGroup, retained) && OnePolicy(retained) && |retained| <= |p.retained|
    ensures Sound(p.(committed := committed, retained := retained), bound)
  {
    hide Cursors, OnePolicy, Increasing;
  }

  /** Every step of every interleaving keeps the invariants. */
  lemma NextSound(p: Provider, bound: nat, event: Event)
    requires Sound(p, bound)
    ensures Sound(Next(p, bound, event), bound)
  {
    hide Sound, Lease, Planned, Completed, BeginPause, Drained, PauseEnds, BeginActivation, ActivationEnds;
    hide BeginResume, ResumeEnds, TimeOut, Get, Commit, Written;
    FlagsSound(p, bound);
    match event
    case Leased => LeaseSound(p, bound);
    case PlansReady(registered, wellFormed) => PlannedSound(p, bound, registered, wellFormed);
    case GroupEnded(ok, excluded) => CompletedSound(p, bound, ok, excluded);
    case PauseAsked => PauseSound(p, bound, false);
    case DrainObserved => PauseSound(p, bound, false);
    case ControllerPaused(proven) => PauseSound(p, bound, proven);
    case ActivateAsked(version) => ActivationSound(p, bound, version, false);
    case ControllerActivated(acknowledged) => ActivationSound(p, bound, 0, acknowledged);
    case ResumeAsked => ResumeSound(p, bound, false);
    case ControllerResumed(acknowledged) => ResumeSound(p, bound, acknowledged);
    case CallWrites => WrittenSound(p, bound);
    case CallerGaveUp =>
    case StreamCancelled =>
    case CloseAsked =>
    case PacketTaken => GetSound(p, bound);
    case GroupsCommitted(stop, consumed) => CommitSound(p, bound, stop, consumed);
  }

  lemma {:induction false} RunSound(initial: Provider, bound: nat, events: seq<Event>)
    requires GoodStart(initial, bound)
    ensures Sound(Run(initial, bound, events), bound)
  {
    hide Next, Cursors, OnePolicy;
    if events != [] {
      RunSound(initial, bound, events[..|events| - 1]);
      NextSound(Run(initial, bound, events[..|events| - 1]), bound, events[|events| - 1]);
    }
  }

  // ----- what it means

  /** Whenever a policy is installed, no group is in flight, the provider is drained, an unspent receipt was used
      for it, and the policy is newer than every one before. */
  lemma InstalledOnlyWhenDrained(initial: Provider, bound: nat, events: seq<Event>, event: Event)
    requires GoodStart(initial, bound)
    requires Next(Run(initial, bound, events), bound, event).installed != Run(initial, bound, events).installed
    ensures var p := Run(initial, bound, events);
            var t := Next(p, bound, event);
            && Quiet(p) && !p.producer.Planning? && !p.producer.Executing?
            && t.installed == p.installed + [p.policy] && t.acknowledged == p.policy
            && (forall k :: 0 <= k < |p.installed| ==> p.installed[k] < p.policy)
            && |t.installed| - 1 <= t.spent <= t.drains
  {
    hide Next, Run, Sound;
    var p := Run(initial, bound, events);
    RunSound(initial, bound, events);
    NextSound(p, bound, event);
    OnlyAdoptionInstalls(p, bound, event);
    InstallIsGated(p, bound);
    ReceiptsHold(Next(p, bound, event), bound);
  }

  lemma InstallIsGated(p: Provider, bound: nat)
    requires Sound(p, bound) && p.control == Adopting
    ensures Quiet(p) && !p.producer.Planning? && !p.producer.Executing?
    ensures forall k :: 0 <= k < |p.installed| ==> p.installed[k] < p.policy
  {
    hide Cursors, OnePolicy, Receipts;
  }

  lemma ReceiptsHold(p: Provider, bound: nat)
    requires Sound(p, bound)
    ensures |p.installed| - 1 <= p.spent <= p.drains
  {
    hide Cursors, OnePolicy, Policies, Gates;
  }

  /** Nothing is installed and no receipt given. */
  ghost predicate Steady(p: Provider, t: Provider) {
    t.installed == p.installed && t.drains == p.drains
  }

  lemma LeaseIsSteady(p: Provider, bound: nat)
    ensures Steady(p, Lease(p, bound))
  {
  }

  lemma PlannedIsSteady(p: Provider, registered: nat, flag: bool)
    ensures Steady(p, Planned(p, registered, flag))
  {
  }

  lemma CompletedIsSteady(p: Provider, flag: bool, excluded: bool)
    ensures Steady(p, Completed(p, flag, excluded))
  {
  }

  lemma GetIsSteady(p: Provider)
    ensures Steady(p, Get(p))
  {
    hide OldestUndelivered;
  }

  lemma CommitIsSteady(p: Provider, stop: nat, consumed: set<nat>)
    ensures Steady(p, Commit(p, stop, consumed))
  {
    hide Committable;
  }

  lemma PauseIsSteady(p: Provider)
    ensures Steady(p, BeginPause(p)) && Steady(p, Drained(p)) && Steady(p, TimeOut(p))
  {
  }

  lemma ActivationIsSteady(p: Provider, version: nat)
    ensures Steady(p, BeginActivation(p, version))
  {
  }

  lemma ResumeIsSteady(p: Provider, acknowledged: bool)
    ensures Steady(p, BeginResume(p)) && Steady(p, ResumeEnds(p, acknowledged).0)
  {
  }

  lemma AnswersAreSteady(p: Provider, answer: bool)
    ensures Steady(p, PauseEnds(p, answer).0) && Steady(p, ActivationEnds(p, answer).0)
  {
    hide TakeSnapshot;
  }

  /** Steps other than a call's writes are steady. */
  lemma OthersAreSteady(p: Provider, bound: nat, event: Event)
    requires event != CallWrites
    ensures Steady(p, Next(p, bound, event))
  {
    hide Lease, Planned, Completed, BeginPause, Drained, PauseEnds, BeginActivation, ActivationEnds, BeginResume, ResumeEnds;
    hide TimeOut, Get, Commit, Writing;
    match event
    case Leased => LeaseIsSteady(p, bound);
    case PlansReady(registered, wellFormed) => PlannedIsSteady(p, registered, wellFormed);
    case GroupEnded(ok, excluded) => CompletedIsSteady(p, ok, excluded);
    case PauseAsked => PauseIsSteady(p);
    case DrainObserved => PauseIsSteady(p);
    case ControllerPaused(proven) => AnswersAreSteady(p, proven);
    case ActivateAsked(version) => ActivationIsSteady(p, version);
    case ControllerActivated(acknowledged) => AnswersAreSteady(p, acknowledged);
    case ResumeAsked => ResumeIsSteady(p, false);
    case ControllerResumed(acknowledged) => ResumeIsSteady(p, acknowledged);
    case CallerGaveUp => PauseIsSteady(p);
    case StreamCancelled =>
    case CloseAsked =>
    case PacketTaken => GetIsSteady(p);
    case GroupsCommitted(stop, consumed) => CommitIsSteady(p, stop, consumed);
  }

  lemma AdoptionInstalls(p: Provider)
    ensures p.control == Adopting ==> Written(p).installed == p.installed + [p.policy] && Written(p).acknowledged == p.policy
    ensures p.control != Adopting ==> Written(p).installed == p.installed
  {
  }

  lemma OnlyAdoptionInstalls(p: Provider, bound: nat, event: Event)
    requires Next(p, bound, event).installed != p.installed
    ensures event == CallWrites && p.control == Adopting
    ensures Next(p, bound, event).installed == p.installed + [p.policy] && Next(p, bound, event).acknowledged == p.policy
  {
    hide Lease, Planned, Completed, BeginPause, Drained, PauseEnds, BeginActivation, ActivationEnds, BeginResume, ResumeEnds;
    hide TimeOut, Get, Commit, Written;
    if event == CallWrites {
      AdoptionInstalls(p);
    } else {
      OthersAreSteady(p, bound, event);
    }
  }

  /** A snapshot is only taken of a mailbox without gaps. */
  lemma SnapshotsHaveNoGaps(initial: Provider, bound: nat, events: seq<Event>)
    requires GoodStart(initial, bound)
    ensures var p := Run(initial, bound, events);
            TakeSnapshot(p).Some? ==> forall id: nat :: id in p.retained <==> p.committed <= id < p.nextGroup
  {
    RunSound(initial, bound, events);
    hide Policies, OnePolicy, Receipts;
  }

  /** Every packet anyone can take belongs to one policy. */
  lemma PacketsHaveOnePolicy(initial: Provider, bound: nat, events: seq<Event>, id: nat)
    requires GoodStart(initial, bound) && id in Run(initial, bound, events).retained
    ensures Run(initial, bound, events).retained[id].registered == Run(initial, bound, events).retained[id].completed
  {
    RunSound(initial, bound, events);
    hide Policies, Receipts, Cursors, Gates;
  }

  // ----- timeouts

  /** Since the timeout nothing was installed and no receipt given, and the provider is paused. */
  ghost predicate Unmoved(t: Provider, p: Provider) {
    p.timedOut && p.paused && !p.ready && p.installed == t.installed && p.drains == t.drains
  }

  /** Once timed out, no step takes the timeout back or passes a test. */
  ghost predicate Failing(p: Provider) {
    p.timedOut && p.error && !Writing(p)
  }

  /** What keeps it so: no call is past its last test, and none passes one any more. */
  ghost predicate Stuck(t: Provider, p: Provider) {
    Unmoved(t, p) && Failing(p)
  }

  lemma ProducerStuck(t: Provider, p: Provider, bound: nat, registered: nat, flag: bool, excluded: bool)
    requires Stuck(t, p)
    ensures Stuck(t, Lease(p, bound)) && Stuck(t, Planned(p, registered, flag)) && Stuck(t, Completed(p, flag, excluded))
  {
    LeaseIsSteady(p, bound);
    PlannedIsSteady(p, registered, flag);
    CompletedIsSteady(p, flag, excluded);
  }

  lemma MailboxStuck(t: Provider, p: Provider, stop: nat, consumed: set<nat>)
    requires Stuck(t, p)
    ensures Stuck(t, Get(p)) && Stuck(t, Commit(p, stop, consumed))
  {
    hide OldestUndelivered, Committable;
  }

  lemma CallsStuck(t: Provider, p: Provider, version: nat, answer: bool)
    requires Stuck(t, p)
    ensures Stuck(t, BeginPause(p)) && Stuck(t, Drained(p)) && Stuck(t, PauseEnds(p, answer).0)
    ensures Stuck(t, BeginActivation(p, version)) && Stuck(t, ActivationEnds(p, answer).0)
    ensures Stuck(t, BeginResume(p)) && Stuck(t, ResumeEnds(p, answer).0) && Stuck(t, TimeOut(p))
  {
    hide TakeSnapshot;
  }

  lemma StaysStuck(t: Provider, p: Provider, bound: nat, event: Event)
    requires Stuck(t, p)
    ensures Stuck(t, Next(p, bound, event))
  {
    hide Lease, Planned, Completed, BeginPause, Drained, PauseEnds, BeginActivation, ActivationEnds, BeginResume, ResumeEnds;
    hide TimeOut, Get, Commit;
    match event
    case Leased => ProducerStuck(t, p, bound, 0, false, false);
    case PlansReady(registered, wellFormed) => ProducerStuck(t, p, bound, registered, wellFormed, false);
    case GroupEnded(ok, excluded) => ProducerStuck(t, p, bound, 0, ok, excluded);
    case PauseAsked => CallsStuck(t, p, 0, false);
    case DrainObserved => CallsStuck(t, p, 0, false);
    case ControllerPaused(proven) => CallsStuck(t, p, 0, proven);
    case ActivateAsked(version) => CallsStuck(t, p, version, false);
    case ControllerActivated(acknowledged) => CallsStuck(t, p, 0, acknowledged);
    case ResumeAsked => CallsStuck(t, p, 0, false);
    case ControllerResumed(acknowledged) => CallsStuck(t, p, 0, acknowledged);
    case CallWrites =>
    case CallerGaveUp => CallsStuck(t, p, 0, false);
    case StreamCancelled =>
    case CloseAsked =>
    case PacketTaken => MailboxStuck(t, p, 0, {});
    case GroupsCommitted(stop, consumed) => MailboxStuck(t, p, stop, consumed);
  }

  lemma {:induction false} StuckForGood(initial: Provider, bound: nat, before: seq<Event>, after: seq<Event>, t: Provider)
    requires Stuck(t, Run(initial, bound, before))
    ensures Stuck(t, Run(initial, bound, before + after))
  {
    hide Next, Stuck;
    if after == [] {
      assert before + after == before;
    } else {
      var front := after[..|after| - 1];
      assert (before + after)[..|before + after| - 1] == before + front;
      StuckForGood(initial, bound, before, front, t);
      StaysStuck(t, Run(initial, bound, before + front), bound, after[|after| - 1]);
    }
  }

  lemma RunAppends(initial: Provider, bound: nat, events: seq<Event>, event: Event)
    ensures Run(initial, bound, events + [event]) == Next(Run(initial, bound, events), bound, event)
  {
    assert (events + [event])[..|events|] == events;
  }

  lemma TimeOutSticks(p: Provider, bound: nat)
    requires !Writing(p)
    ensures var t := Next(p, bound, CallerGaveUp); Stuck(t, t)
  {
  }

  lemma WritingMoves(p: Provider, bound: nat)
    requires Writing(p)
    ensures var t := Next(p, bound, CallerGaveUp); !Unmoved(t, Next(t, bound, CallWrites))
  {
  }

  /** After a caller has given up nothing is installed, granted or reopened any more, whatever follows, exactly if no
      call had passed its last test when it gave up. */
  lemma NothingAfterTimeoutIff(initial: Provider, bound: nat, before: seq<Event>)
    ensures var t := Run(initial, bound, before + [CallerGaveUp]);
            !Writing(Run(initial, bound, before)) <==>
              forall after :: Unmoved(t, Run(initial, bound, before + [CallerGaveUp] + after))
  {
    hide Next, Run, Writing, Unmoved;
    var p, t := Run(initial, bound, before), Run(initial, bound, before + [CallerGaveUp]);
    RunAppends(initial, bound, before, CallerGaveUp);
    if Writing(p) {
      RunAppends(initial, bound, before + [CallerGaveUp], CallWrites);
      WritingMoves(p, bound);
    } else {
      TimeOutSticks(p, bound);
      forall after ensures Unmoved(t, Run(initial, bound, before + [CallerGaveUp] + after)) {
        StuckForGood(initial, bound, before + [CallerGaveUp], after, t);
      }
    }
  }

  /** A call that had passed its last test writes once more: its receipt, its policy, or the reopening. */
  lemma LastWriteAfterTimeout(initial: Provider, bound: nat, before: seq<Event>)
    requires Writing(Run(initial, bound, before))
    ensures var p := Run(initial, bound, before);
            var t := Run(initial, bound, before + [CallerGaveUp] + [CallWrites]);
            && t.timedOut && t.error && !Writing(t)
            && (p.control == Granting ==> t.ready && t.drains == p.drains + 1 && t.installed == p.installed && t.paused)
            && (p.control == Adopting ==> t.installed == p.installed + [p.policy] && t.drains == p.drains && t.paused && !t.ready)
            && (p.control == Reopening ==> !t.paused && !t.ready && t.installed == p.installed && t.drains == p.drains)
  {
    hide Run, Next, Writing;
    RunAppends(initial, bound, before, CallerGaveUp);
    RunAppends(initial, bound, before + [CallerGaveUp], CallWrites);
    LastWrite(Run(initial, bound, before), bound);
  }

  lemma LastWrite(p: Provider, bound: nat)
    requires Writing(p)
    ensures var t := Next(Next(p, bound, CallerGaveUp), bound, CallWrites);
            && t.timedOut && t.error && !Writing(t)
            && (p.control == Granting ==> t.ready && t.drains == p.drains + 1 && t.installed == p.installed && t.paused)
            && (p.control == Adopting ==> t.installed == p.installed + [p.policy] && t.drains == p.drains && t.paused && !t.ready)
            && (p.control == Reopening ==> !t.paused && !t.ready && t.installed == p.installed && t.drains == p.drains)
  {
    TimeOutFields(p, bound);
  }

  lemma TimeOutFields(p: Provider, bound: nat)
    ensures var t := Next(p, bound, CallerGaveUp);
            && t.timedOut && t.paused && t.error && !t.ready && t.control == p.control && t.policy == p.policy
            && t.installed == p.installed && t.drains == p.drains
  {
  }

  /** Then, too, no call passes its last test again: whatever the provider does, no policy is installed and no
      receipt granted. */
  lemma NothingGrantedAgain(initial: Provider, bound: nat, before: seq<Event>, after: seq<Event>)
    requires Run(initial, bound, before).timedOut && Run(initial, bound, before).error && !Writing(Run(initial, bound, before))
    ensures var t, p := Run(initial, bound, before), Run(initial, bound, before + after);
            p.timedOut && !Writing(p) && p.installed == t.installed && p.drains == t.drains
  {
    hide Next, Shut;
    assert before + [] == before;
    ShutForGood(initial, bound, before, after);
    ShutMeans(Run(initial, bound, before), Run(initial, bound, before + after));
  }

  ghost predicate Shut(t: Provider, p: Provider) {
    Failing(p) && Steady(t, p)
  }

  lemma ShutMeans(t: Provider, p: Provider)
    requires Shut(t, p)
    ensures p.timedOut && !Writing(p) && p.installed == t.installed && p.drains == t.drains
  {
  }

  lemma ProducerFailing(p: Provider, bound: nat, registered: nat, flag: bool, excluded: bool)
    requires Failing(p)
    ensures Failing(Lease(p, bound)) && Failing(Planned(p, registered, flag)) && Failing(Completed(p, flag, excluded))
  {
  }

  lemma MailboxFailing(p: Provider, stop: nat, consumed: set<nat>)
    requires Failing(p)
    ensures Failing(Get(p)) && Failing(Commit(p, stop, consumed))
  {
    hide OldestUndelivered, Committable;
  }

  lemma CallsFailing(p: Provider, version: nat, answer: bool)
    requires Failing(p)
    ensures Failing(BeginPause(p)) && Failing(Drained(p)) && Failing(PauseEnds(p, answer).0)
    ensures Failing(BeginActivation(p, version)) && Failing(ActivationEnds(p, answer).0)
    ensures Failing(BeginResume(p)) && Failing(ResumeEnds(p, answer).0) && Failing(TimeOut(p)) && Written(p) == p
  {
    hide *;
    PauseFailing(p, answer);
    ActivationFailing(p, version, answer);
    ResumeFailing(p, answer);
    NothingToWrite(p);
  }

  lemma NothingToWrite(p: Provider)
    requires !Writing(p)
    ensures Written(p) == p
  {
  }

  lemma PauseFailing(p: Provider, answer: bool)
    requires Failing(p)
    ensures Failing(BeginPause(p)) && Failing(Drained(p)) && Failing(PauseEnds(p, answer).0) && !Writing(p)
  {
    hide TakeSnapshot;
  }

  lemma ActivationFailing(p: Provider, version: nat, answer: bool)
    requires Failing(p)
    ensures Failing(BeginActivation(p, version)) && Failing(ActivationEnds(p, answer).0)
  {
  }

  lemma ResumeFailing(p: Provider, answer: bool)
    requires Failing(p)
    ensures Failing(BeginResume(p)) && Failing(ResumeEnds(p, answer).0) && Failing(TimeOut(p))
  {
  }

  lemma StaysFailing(p: Provider, bound: nat, event: Event)
    requires Failing(p)
    ensures Failing(Next(p, bound, event)) && (event == CallWrites ==> Next(p, bound, event) == p)
  {
    hide Lease, Planned, Completed, BeginPause, Drained, PauseEnds, BeginActivation, ActivationEnds, BeginResume, ResumeEnds;
    hide TimeOut, Get, Commit, Written;
    match event
    case Leased => ProducerFailing(p, bound, 0, false, false);
    case PlansReady(registered, wellFormed) => ProducerFailing(p, bound, registered, wellFormed, false);
    case GroupEnded(ok, excluded) => ProducerFailing(p, bound, 0, ok, excluded);
    case PauseAsked => CallsFailing(p, 0, false);
    case DrainObserved => CallsFailing(p, 0, false);
    case ControllerPaused(proven) => CallsFailing(p, 0, proven);
    case ActivateAsked(version) => CallsFailing(p, version, false);
    case ControllerActivated(acknowledged) => CallsFailing(p, 0, acknowledged);
    case ResumeAsked => CallsFailing(p, 0, false);
    case ControllerResumed(acknowledged) => CallsFailing(p, 0, acknowledged);
    case CallWrites => CallsFailing(p, 0, false);
    case CallerGaveUp => CallsFailing(p, 0, false);
    case StreamCancelled =>
    case CloseAsked =>
    case PacketTaken => MailboxFailing(p, 0, {});
    case GroupsCommitted(stop, consumed) => MailboxFailing(p, stop, consumed);
  }

  lemma StaysShut(t: Provider, p: Provider, bound: nat, event: Event)
    requires Shut(t, p)
    ensures Shut(t, Next(p, bound, event))
  {
    hide Next, Writing;
    StaysFailing(p, bound, event);
    if event != CallWrites {
      OthersAreSteady(p, bound, event);
    }
  }

  lemma {:induction false} ShutForGood(initial: Provider, bound: nat, before: seq<Event>, after: seq<Event>)
    requires var t := Run(initial, bound, before); t.timedOut && t.error && !Writing(t)
    ensures Shut(Run(initial, bound, before), Run(initial, bound, before + after))
  {
    hide Next;
    var t := Run(initial, bound, before);
    if after == [] {
      assert before + after == before;
    } else {
      var front := after[..|after| - 1];
      assert (before + after)[..|before + after| - 1] == before + front;
      ShutForGood(initial, bound, before, front);
      StaysShut(t, Run(initial, bound, before + front), bound, after[|after| - 1]);
    }
  }
}
