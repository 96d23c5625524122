/** What must have happened for a policy to be installed, a receipt to be given, the provider to reopen or an error
    to be recorded; and what a whole turn of the learner, or of the producer, comes to. */
module ActivationCauses {
  import opened ActivationSpec
  import opened ActivationTheorems

  // ----- the calls that got on

  /** The events that took a call on to its next stage. */
  function Log(initial: Provider, bound: nat, events: seq<Event>): seq<Event> {
    if events == [] then []
    else
      var (front, last) := (events[..|events| - 1], events[|events| - 1]);
      Log(initial, bound, front) + Logged(Run(initial, bound, front), bound, last)
  }

  function Logged(p: Provider, bound: nat, event: Event): seq<Event> {
    if Next(p, bound, event).control != p.control then [event] else []
  }

  predicate Ends(log: seq<Event>, a: Event) {
    |log| >= 1 && log[|log| - 1] == a
  }

  predicate EndsWithTwo(log: seq<Event>, a: Event, b: Event) {
    |log| >= 2 && log[|log| - 1] == b && log[|log| - 2] == a
  }

  predicate EndsWithThree(log: seq<Event>, a: Event, b: Event, c: Event) {
    |log| >= 3 && log[|log| - 1] == c && log[|log| - 2] == b && log[|log| - 3] == a
  }

  /** The controller has proven the drain of this pause, acknowledged this activation, or acknowledged this resumption. */
  predicate DrainProven(log: seq<Event>) {
    EndsWithThree(log, PauseAsked, DrainObserved, ControllerPaused(true))
  }

  predicate PolicyAcknowledged(log: seq<Event>, version: nat) {
    EndsWithTwo(log, ActivateAsked(version), ControllerActivated(true))
  }

  predicate ResumeAcknowledged(log: seq<Event>) {
    EndsWithTwo(log, ResumeAsked, ControllerResumed(true))
  }

  /** How a call got to its stage. */
  predicate Came(p: Provider, log: seq<Event>) {
    match p.control
    case Free => true
    case Draining => Ends(log, PauseAsked)
    case ProvingDrain => EndsWithTwo(log, PauseAsked, DrainObserved)
    case Granting => DrainProven(log)
    case Activating(_) => Ends(log, ActivateAsked(p.policy))
    case Adopting => PolicyAcknowledged(log, p.policy)
    case Resuming => Ends(log, ResumeAsked)
    case Reopening => ResumeAcknowledged(log)
  }

  /** Which events move a call, and from where to where. */
  predicate Moves(p: Provider, t: Provider, event: Event) {
    match event
    case PauseAsked => p.control == Free && t.control == Draining
    case DrainObserved => p.control == Draining && t.control == ProvingDrain
    case ControllerPaused(proven) => p.control == ProvingDrain && (t.control == Free || (proven && t.control == Granting))
    case ActivateAsked(version) => p.control == Free && t.control.Activating? && t.policy == version
    case ControllerActivated(acknowledged) =>
      p.control.Activating? && (t.control == Free || (acknowledged && t.control == Adopting && t.policy == p.policy))
    case ResumeAsked => p.control == Free && t.control == Resuming
    case ControllerResumed(acknowledged) => p.control == Resuming && (t.control == Free || (acknowledged && t.control == Reopening))
    case CallWrites => Writing(p) && t.control == Free
    case _ => false
  }

  /** The step moves the call as it may, or leaves it, and the policy it concerns, where it is. */
  predicate MovesOrStays(p: Provider, t: Provider, event: Event) {
    if t.control != p.control then Moves(p, t, event)
    else p.control.Activating? || p.control == Adopting ==> t.policy == p.policy
  }

  lemma LeaseStays(p: Provider, bound: nat)
    ensures Lease(p, bound).control == p.control && Lease(p, bound).policy == p.policy
  {
  }

  lemma PlannedStays(p: Provider, registered: nat, flag: bool)
    ensures Planned(p, registered, flag).control == p.control && Planned(p, registered, flag).policy == p.policy
  {
  }

  lemma CompletedStays(p: Provider, flag: bool, excluded: bool)
    ensures Completed(p, flag, excluded).control == p.control && Completed(p, flag, excluded).policy == p.policy
  {
  }

  lemma GetStays(p: Provider)
    ensures Get(p).control == p.control && Get(p).policy == p.policy
  {
    hide OldestUndelivered;
  }

  lemma CommitStays(p: Provider, stop: nat, consumed: set<nat>)
    ensures Commit(p, stop, consumed).control == p.control && Commit(p, stop, consumed).policy == p.policy
  {
    hide Committable;
  }

  lemma PauseMoves(p: Provider, answer: bool)
    ensures MovesOrStays(p, BeginPause(p), PauseAsked) && MovesOrStays(p, Drained(p), DrainObserved)
    ensures MovesOrStays(p, PauseEnds(p, answer).0, ControllerPaused(answer))
  {
    hide TakeSnapshot;
  }

  lemma ActivationMoves(p: Provider, version: nat, answer: bool)
    ensures MovesOrStays(p, BeginActivation(p, version), ActivateAsked(version))
    ensures MovesOrStays(p, ActivationEnds(p, answer).0, ControllerActivated(answer))
  {
  }

  lemma ResumeMoves(p: Provider, answer: bool)
    ensures MovesOrStays(p, BeginResume(p), ResumeAsked)
    ensures MovesOrStays(p, ResumeEnds(p, answer).0, ControllerResumed(answer))
  {
  }

  /** What no call writes. */
  predicate SameElsewhere(p: Provider, t: Provider) {
    && t.policy == p.policy && t.producer == p.producer && t.active == p.active && t.closing == p.closing
    && t.cancelled == p.cancelled && t.error == p.error && t.timedOut == p.timedOut && t.nextGroup == p.nextGroup
    && t.committed == p.committed && t.retained == p.retained && t.spent == p.spent
  }

  lemma Granted(p: Provider)
    requires p.control.Granting?
    ensures var t := Written(p);
            && t.control.Free? && SameElsewhere(p, t) && t.drains == p.drains + 1 && t.installed == p.installed
            && t.paused == p.paused && t.streamPaused == p.streamPaused && t.ready
  {
  }

  lemma Adopted(p: Provider)
    requires p.control.Adopting?
    ensures var t := Written(p);
            && t.control.Free? && SameElsewhere(p, t) && t.drains == p.drains && t.installed == p.installed + [p.policy]
            && t.paused == p.paused && t.streamPaused == p.streamPaused && t.ready == p.ready
  {
  }

  lemma Reopened(p: Provider)
    requires p.control.Reopening?
    ensures var t := Written(p);
            && t.control.Free? && SameElsewhere(p, t) && t.drains == p.drains && t.installed == p.installed
            && !t.paused && !t.streamPaused && !t.ready
  {
  }

  lemma SameAsItself(p: Provider)
    ensures SameElsewhere(p, p)
  {
  }

  /** What a call writes after its last test. */
  lemma Writes(p: Provider)
    ensures var t := Written(p);
            && SameElsewhere(p, t) && (Writing(p) ==> t.control.Free?) && (!Writing(p) ==> t == p)
            && t.drains == p.drains + (if p.control.Granting? then 1 else 0)
            && t.installed == p.installed + (if p.control.Adopting? then [p.policy] else [])
            && t.paused == (p.paused && !p.control.Reopening?)
            && t.streamPaused == (p.streamPaused && !p.control.Reopening?)
            && t.ready == (p.control.Granting? || (p.ready && !p.control.Reopening?))
  {
    hide Written, SameElsewhere;
    if p.control.Granting? {
      Granted(p);
    } else if p.control.Adopting? {
      Adopted(p);
    } else if p.control.Reopening? {
      Reopened(p);
    } else {
      NothingToWrite(p);
      SameAsItself(p);
    }
  }

  lemma WriteMoves(p: Provider)
    ensures MovesOrStays(p, Written(p), CallWrites)
  {
    hide Written;
    Writes(p);
  }

  lemma MovesAs(p: Provider, bound: nat, event: Event)
    ensures MovesOrStays(p, Next(p, bound, event), event)
  {
    hide Lease, Planned, Completed, BeginPause, Drained, PauseEnds, BeginActivation, ActivationEnds, BeginResume, ResumeEnds;
    hide Get, Commit, Written, Writing, Moves;
    match event
    case Leased => LeaseStays(p, bound);
    case PlansReady(registered, wellFormed) => PlannedStays(p, registered, wellFormed);
    case GroupEnded(ok, excluded) => CompletedStays(p, ok, excluded);
    case PauseAsked => PauseMoves(p, false);
    case DrainObserved => PauseMoves(p, false);
    case ControllerPaused(proven) => PauseMoves(p, proven);
    case ActivateAsked(version) => ActivationMoves(p, version, false);
    case ControllerActivated(acknowledged) => ActivationMoves(p, 0, acknowledged);
    case ResumeAsked => ResumeMoves(p, false);
    case ControllerResumed(acknowledged) => ResumeMoves(p, acknowledged);
    case CallWrites => WriteMoves(p);
    case CallerGaveUp =>
    case StreamCancelled =>
    case CloseAsked =>
    case PacketTaken => GetStays(p);
    case GroupsCommitted(stop, consumed) => CommitStays(p, stop, consumed);
  }

  lemma CameNext(p: Provider, bound: nat, event: Event, log: seq<Event>)
    requires Came(p, log)
    ensures Came(Next(p, bound, event), log + Logged(p, bound, event))
  {
    hide Next;
    MovesAs(p, bound, event);
    if Next(p, bound, event).control == p.control {
      assert log + [] == log;
    }
  }

  lemma {:induction false} CameSo(initial: Provider, bound: nat, events: seq<Event>)
    requires initial.control == Free
    ensures Came(Run(initial, bound, events), Log(initial, bound, events))
  {
    hide Came, Next;
    if events == [] {
      FreeCame(initial);
    } else {
      var front := events[..|events| - 1];
      CameSo(initial, bound, front);
      CameNext(Run(initial, bound, front), bound, events[|events| - 1], Log(initial, bound, front));
    }
  }

  lemma FreeCame(p: Provider)
    requires p.control == Free
    ensures Came(p, [])
  {
  }

  // ----- what they did

  /** The policies of the activations the controller acknowledged, in order. */
  function Acknowledged(log: seq<Event>): seq<nat> {
    if log == [] then []
    else
      var (front, last) := (log[..|log| - 1], log[|log| - 1]);
      var before := Acknowledged(front);
      if last == CallWrites && |front| >= 2 && front[|front| - 2].ActivateAsked?
         && PolicyAcknowledged(front, front[|front| - 2].version) then before + [front[|front| - 2].version]
      else before
  }

  /** The drains the controller has proven. */
  function Proven(log: seq<Event>): nat {
    if log == [] then 0
    else
      var (front, last) := (log[..|log| - 1], log[|log| - 1]);
      Proven(front) + (if last == CallWrites && DrainProven(front) then 1 else 0)
  }

  lemma AcknowledgedNext(log: seq<Event>, event: Event)
    ensures event != CallWrites ==> Acknowledged(log + [event]) == Acknowledged(log) && Proven(log + [event]) == Proven(log)
    ensures event == CallWrites ==>
              && Proven(log + [event]) == Proven(log) + (if DrainProven(log) then 1 else 0)
              && (forall version :: PolicyAcknowledged(log, version) ==>
                    Acknowledged(log + [event]) == Acknowledged(log) + [version])
              && ((forall version :: !PolicyAcknowledged(log, version)) ==> Acknowledged(log + [event]) == Acknowledged(log))
  {
    assert (log + [event])[..|log + [event]| - 1] == log;
  }

  /** What an event installs. */
  function Adopts(p: Provider, event: Event): seq<nat> {
    if event == CallWrites && p.control == Adopting then [p.policy] else []
  }

  lemma TallyNext(p: Provider, bound: nat, event: Event, log: seq<Event>)
    requires Came(p, log)
    ensures var (t, after) := (Next(p, bound, event), log + Logged(p, bound, event));
            && t.drains - p.drains == Proven(after) - Proven(log)
            && t.installed == p.installed + Adopts(p, event) && Acknowledged(after) == Acknowledged(log) + Adopts(p, event)
  {
    hide Next, Acknowledged, Proven, Written, Writing, Came, PolicyAcknowledged, DrainProven;
    var t := Next(p, bound, event);
    AcknowledgedNext(log, event);
    if event != CallWrites {
      OthersAreSteady(p, bound, event);
      assert log + [] == log;
    } else {
      WriteIs(p, bound);
      Writes(p);
      if Writing(p) {
        StageIs(p, log);
        WriteIsLogged(p, bound);
      } else {
        assert Logged(p, bound, event) == [];
        assert log + [] == log;
      }
    }
  }

  lemma WriteIs(p: Provider, bound: nat)
    ensures Next(p, bound, CallWrites) == Written(p)
  {
  }

  lemma WriteIsLogged(p: Provider, bound: nat)
    requires Writing(p)
    ensures Logged(p, bound, CallWrites) == [CallWrites]
  {
    hide Written, Next, SameElsewhere;
    WriteIs(p, bound);
    Writes(p);
  }

  lemma StageIs(p: Provider, log: seq<Event>)
    requires Came(p, log) && Writing(p)
    ensures p.control == Adopting <==> PolicyAcknowledged(log, p.policy)
    ensures p.control == Granting <==> DrainProven(log)
    ensures p.control == Reopening <==> ResumeAcknowledged(log)
    ensures p.control != Adopting ==> forall version :: !PolicyAcknowledged(log, version)
  {
  }

  /** The policies installed are exactly those the controller acknowledged in an activation of their own, in that
      order; and there are as many receipts as drains it has proven. */
  lemma {:induction false} InstalledAreAcknowledged(initial: Provider, bound: nat, events: seq<Event>)
    requires initial.control == Free
    ensures var (p, log) := (Run(initial, bound, events), Log(initial, bound, events));
            p.installed == initial.installed + Acknowledged(log) && p.drains == initial.drains + Proven(log)
  {
    hide Came, Next, Logged;
    if events != [] {
      var front, last := events[..|events| - 1], events[|events| - 1];
      var p, log := Run(initial, bound, front), Log(initial, bound, front);
      InstalledAreAcknowledged(initial, bound, front);
      CameSo(initial, bound, front);
      TallyNext(p, bound, last, log);
      var more := Adopts(p, last);
      assert initial.installed + Acknowledged(log) + more == initial.installed + (Acknowledged(log) + more);
    }
  }

  /** Every single step has its cause: a policy is installed only when the controller has acknowledged this very
      activation, a receipt appears only when it has proven this very drain, and the provider reopens, to new groups
      or to executing them, only when it has acknowledged this very resumption. */
  lemma EffectsHaveCauses(initial: Provider, bound: nat, events: seq<Event>, event: Event)
    requires initial.control == Free
    ensures var (p, log) := (Run(initial, bound, events), Log(initial, bound, events));
            var t := Next(p, bound, event);
            && (t.installed != p.installed ==>
                  event == CallWrites && PolicyAcknowledged(log, p.policy) && t.installed == p.installed + [p.policy])
            && (t.drains != p.drains || (t.ready && !p.ready) ==> event == CallWrites && DrainProven(log))
            && (p.paused && !t.paused ==> event == CallWrites && ResumeAcknowledged(log))
            && (p.streamPaused && !t.streamPaused ==> event == CallWrites && ResumeAcknowledged(log))
  {
    hide Next, Came, Written, PolicyAcknowledged, DrainProven, ResumeAcknowledged, SameElsewhere;
    var p, log := Run(initial, bound, events), Log(initial, bound, events);
    CameSo(initial, bound, events);
    if event == CallWrites {
      WriteIs(p, bound);
      Writes(p);
      if Writing(p) {
        StageIs(p, log);
      }
    } else {
      OthersAreSteady(p, bound, event);
      OthersOnlyClose(p, bound, event);
    }
  }

  /** Nothing but a call's writes opens what is paused, or gives a receipt. */
  predicate OnlyCloses(p: Provider, t: Provider) {
    (p.paused ==> t.paused) && (p.streamPaused ==> t.streamPaused) && (t.ready ==> p.ready)
  }

  lemma LeaseCloses(p: Provider, bound: nat)
    ensures OnlyCloses(p, Lease(p, bound))
  {
  }

  lemma PlannedCloses(p: Provider, registered: nat, flag: bool)
    ensures OnlyCloses(p, Planned(p, registered, flag))
  {
  }

  lemma CompletedCloses(p: Provider, flag: bool, excluded: bool)
    ensures OnlyCloses(p, Completed(p, flag, excluded))
  {
  }

  lemma GetCloses(p: Provider)
    ensures OnlyCloses(p, Get(p))
  {
    hide OldestUndelivered;
  }

  lemma CommitCloses(p: Provider, stop: nat, consumed: set<nat>)
    ensures OnlyCloses(p, Commit(p, stop, consumed))
  {
    hide Committable;
  }

  lemma PauseCloses(p: Provider, answer: bool)
    ensures OnlyCloses(p, BeginPause(p)) && OnlyCloses(p, Drained(p)) && OnlyCloses(p, PauseEnds(p, answer).0)
  {
    hide BeginPause, Drained, PauseEnds, OnlyCloses;
    PauseBeginsClosing(p);
    DrainCloses(p);
    PauseAnswerCloses(p, answer);
  }

  lemma PauseBeginsClosing(p: Provider)
    ensures OnlyCloses(p, BeginPause(p))
  {
  }

  lemma DrainCloses(p: Provider)
    ensures OnlyCloses(p, Drained(p))
  {
  }

  lemma PauseAnswerCloses(p: Provider, answer: bool)
    ensures OnlyCloses(p, PauseEnds(p, answer).0)
  {
    hide TakeSnapshot;
  }

  lemma ActivationCloses(p: Provider, version: nat, answer: bool)
    ensures OnlyCloses(p, BeginActivation(p, version)) && OnlyCloses(p, ActivationEnds(p, answer).0)
  {
  }

  lemma ResumeCloses(p: Provider, answer: bool)
    ensures OnlyCloses(p, BeginResume(p)) && OnlyCloses(p, ResumeEnds(p, answer).0)
  {
  }

  lemma OthersOnlyClose(p: Provider, bound: nat, event: Event)
    requires event != CallWrites
    ensures OnlyCloses(p, Next(p, bound, event))
  {
    hide Lease, Planned, Completed, BeginPause, Drained, PauseEnds, BeginActivation, ActivationEnds, BeginResume, ResumeEnds;
    hide Get, Commit, Writing;
    match event
    case Leased => LeaseCloses(p, bound);
    case PlansReady(registered, wellFormed) => PlannedCloses(p, registered, wellFormed);
    case GroupEnded(ok, excluded) => CompletedCloses(p, ok, excluded);
    case PauseAsked => PauseCloses(p, false);
    case DrainObserved => PauseCloses(p, false);
    case ControllerPaused(proven) => PauseCloses(p, proven);
    case ActivateAsked(version) => ActivationCloses(p, version, false);
    case ControllerActivated(acknowledged) => ActivationCloses(p, 0, acknowledged);
    case ResumeAsked => ResumeCloses(p, false);
    case ControllerResumed(acknowledged) => ResumeCloses(p, acknowledged);
    case CallerGaveUp =>
    case StreamCancelled =>
    case CloseAsked =>
    case PacketTaken => GetCloses(p);
    case GroupsCommitted(stop, consumed) => CommitCloses(p, stop, consumed);
  }

  // ----- why the provider needs reconciliation

  /** Plans that are malformed, or registered under another policy than the last installed one, or a group that failed. */
  predicate Botches(p: Provider, event: Event)
    requires p.installed != []
  {
    match event
    case PlansReady(registered, wellFormed) =>
      p.producer.Planning? && (!wellFormed || registered != p.installed[|p.installed| - 1])
    case GroupEnded(ok, _) => p.producer.Executing? && !ok
    case _ => false
  }

  /** A caller that gave up, a producer that failed, or a controller that did not acknowledge a policy. */
  ghost predicate Cause(p: Provider, event: Event)
    requires p.installed != []
  {
    event == CallerGaveUp || (!Writing(p) && Botches(p, event)) || (p.control.Activating? && event == ControllerActivated(false))
  }

  ghost predicate Troubled(initial: Provider, bound: nat, events: seq<Event>)
    requires GoodStart(initial, bound)
  {
    if events == [] then false
    else
      var (front, last) := (events[..|events| - 1], events[|events| - 1]);
      var p := Run(initial, bound, front);
      RunSound(initial, bound, front);
      Troubled(initial, bound, front) || Cause(p, last)
  }

  ghost predicate ErrsAs(p: Provider, t: Provider, cause: bool) {
    t.error <==> p.error || cause
  }

  lemma ProducerErrs(p: Provider, bound: nat, registered: nat, flag: bool, excluded: bool)
    ensures ErrsAs(p, Lease(p, bound), false)
    ensures ErrsAs(p, Planned(p, registered, flag), p.producer.Planning? && (!flag || registered != p.policy))
    ensures ErrsAs(p, Completed(p, flag, excluded), p.producer.Executing? && !flag)
  {
  }

  lemma GetErrs(p: Provider)
    ensures ErrsAs(p, Get(p), false)
  {
    hide OldestUndelivered;
  }

  lemma CommitErrs(p: Provider, stop: nat, consumed: set<nat>)
    ensures ErrsAs(p, Commit(p, stop, consumed), false)
  {
    hide Committable;
  }

  lemma PauseErrs(p: Provider, answer: bool)
    ensures ErrsAs(p, BeginPause(p), false) && ErrsAs(p, Drained(p), false) && ErrsAs(p, PauseEnds(p, answer).0, false)
  {
    hide PauseEnds;
    PauseAnswerErrs(p, answer);
  }

  lemma PauseAnswerErrs(p: Provider, answer: bool)
    ensures ErrsAs(p, PauseEnds(p, answer).0, false)
  {
    hide TakeSnapshot;
  }

  lemma ActivationErrs(p: Provider, version: nat, answer: bool)
    requires p.timedOut ==> p.error
    ensures ErrsAs(p, BeginActivation(p, version), false)
    ensures ErrsAs(p, ActivationEnds(p, answer).0, p.control.Activating? && !answer)
  {
  }

  lemma ResumeErrs(p: Provider, answer: bool)
    ensures ErrsAs(p, BeginResume(p), false) && ErrsAs(p, ResumeEnds(p, answer).0, false)
  {
  }

  lemma WriteErrs(p: Provider)
    ensures ErrsAs(p, Written(p), false)
  {
    hide Written;
    Writes(p);
  }

  lemma ErrsNext(p: Provider, bound: nat, event: Event)
    requires Sound(p, bound)
    ensures p.installed != [] && ErrsAs(p, Next(p, bound, event), Cause(p, event))
  {
    hide Sound, Lease, Planned, Completed, BeginPause, Drained, PauseEnds, BeginActivation, ActivationEnds, BeginResume, ResumeEnds;
    hide Get, Commit, Written;
    SoundPolicies(p, bound);
    match event
    case Leased => ProducerErrs(p, bound, 0, false, false);
    case PlansReady(registered, wellFormed) => ProducerErrs(p, bound, registered, wellFormed, false);
    case GroupEnded(ok, excluded) => ProducerErrs(p, bound, 0, ok, excluded);
    case PauseAsked => PauseErrs(p, false);
    case DrainObserved => PauseErrs(p, false);
    case ControllerPaused(proven) => PauseErrs(p, proven);
    case ActivateAsked(version) => ActivationErrs(p, version, false);
    case ControllerActivated(acknowledged) => ActivationErrs(p, 0, acknowledged);
    case ResumeAsked => ResumeErrs(p, false);
    case ControllerResumed(acknowledged) => ResumeErrs(p, acknowledged);
    case CallWrites => WriteErrs(p);
    case CallerGaveUp =>
    case StreamCancelled =>
    case CloseAsked =>
    case PacketTaken => GetErrs(p);
    case GroupsCommitted(stop, consumed) => CommitErrs(p, stop, consumed);
  }

  /** Outside an activation the policy in force is the one installed last; an activation waits with its producer idle. */
  lemma SoundPolicies(p: Provider, bound: nat)
    requires Sound(p, bound)
    ensures p.installed != [] && (p.timedOut ==> p.error)
    ensures p.producer.Planning? || p.producer.Executing? ==> p.policy == p.installed[|p.installed| - 1]
    ensures !p.control.Activating? && p.control != Adopting ==> p.policy == p.installed[|p.installed| - 1]
    ensures p.control.Activating? ==> p.control.prior == p.installed[|p.installed| - 1]
  {
    hide Cursors, OnePolicy, Receipts, Increasing;
  }

  /** An error is recorded exactly if a caller gave up, the producer failed, or the controller did not acknowledge a
      policy; and whenever no activation is under way the policy in force is the last installed one, so that of an
      activation that was not acknowledged nothing remains. */
  lemma {:induction false} ErrorIffTroubled(initial: Provider, bound: nat, events: seq<Event>)
    requires GoodStart(initial, bound)
    ensures var p := Run(initial, bound, events);
            && (p.error <==> Troubled(initial, bound, events))
            && p.installed != []
            && (!p.control.Activating? && p.control != Adopting ==> p.policy == p.installed[|p.installed| - 1])
            && (p.control.Activating? ==> p.control.prior == p.installed[|p.installed| - 1])
  {
    hide Sound, Next, Botches, GoodStart;
    RunSound(initial, bound, events);
    SoundPolicies(Run(initial, bound, events), bound);
    if events == [] {
      StartsWithout(initial, bound);
    } else {
      var front := events[..|events| - 1];
      ErrorIffTroubled(initial, bound, front);
      RunSound(initial, bound, front);
      ErrsNext(Run(initial, bound, front), bound, events[|events| - 1]);
    }
  }

  lemma StartsWithout(initial: Provider, bound: nat)
    requires GoodStart(initial, bound)
    ensures !initial.error
  {
  }

  // ----- a turn of the learner

  lemma PauseBegins(p: Provider, bound: nat)
    requires p.control.Free? && !p.active
    ensures Next(Next(p, bound, PauseAsked), bound, DrainObserved)
              == p.(control := ProvingDrain, ready := false, paused := true, streamPaused := true)
  {
  }

  /** A pause with no group in flight. */
  lemma PauseCall(p: Provider, bound: nat, proven: bool)
    requires p.control.Free? && !p.active && (p.timedOut ==> p.error)
    ensures var granted := proven && !p.error && !p.cancelled;
            Next(Next(Next(Next(p, bound, PauseAsked), bound, DrainObserved), bound, ControllerPaused(proven)), bound, CallWrites)
              == p.(ready := granted, paused := true, streamPaused := true, drains := p.drains + (if granted then 1 else 0))
  {
    hide Next;
    PauseBegins(p, bound);
    PauseAnswered(p.(control := ProvingDrain, ready := false, paused := true, streamPaused := true), bound, proven);
  }

  lemma PauseAnswered(p: Provider, bound: nat, proven: bool)
    requires p.control.ProvingDrain? && !p.active && (p.timedOut ==> p.error) && !p.ready
    ensures var granted := proven && !p.error && !p.cancelled;
            Next(Next(p, bound, ControllerPaused(proven)), bound, CallWrites)
              == p.(control := Free, ready := granted, drains := p.drains + (if granted then 1 else 0))
  {
    var t := Next(p, bound, ControllerPaused(proven));
    if proven && !p.error && !p.cancelled {
      assert t == p.(control := Granting);
    } else {
      assert t == p.(control := Free);
    }
  }

  /** What the provider asks of an activation, with its receipt. */
  predicate Activatable(p: Provider, version: nat) {
    !p.closing && p.paused && p.streamPaused && !p.active && !p.error && !p.cancelled && version > p.policy
  }

  lemma ActivateCall(p: Provider, bound: nat, version: nat, acknowledged: bool)
    requires p.control.Free? && p.ready && (p.timedOut ==> p.error)
    ensures var spent := p.(ready := false, spent := p.spent + 1);
            Next(Next(Next(p, bound, ActivateAsked(version)), bound, ControllerActivated(acknowledged)), bound, CallWrites) ==
              if !Activatable(p, version) then spent
              else if acknowledged then spent.(policy := version, acknowledged := version, installed := p.installed + [version])
              else spent.(error := true)
  {
    var t := Next(p, bound, ActivateAsked(version));
    if Activatable(p, version) {
      assert t == p.(ready := false, spent := p.spent + 1, control := Activating(p.policy), policy := version);
      ActivationAnswered(t, bound, acknowledged);
    } else {
      assert t == p.(ready := false, spent := p.spent + 1);
    }
  }

  lemma ActivationAnswered(p: Provider, bound: nat, acknowledged: bool)
    requires p.control.Activating? && !p.timedOut
    ensures Next(Next(p, bound, ControllerActivated(acknowledged)), bound, CallWrites) ==
              if acknowledged then p.(control := Free, acknowledged := p.policy, installed := p.installed + [p.policy])
              else p.(control := Free, policy := p.control.prior, error := true)
  {
    var t := Next(p, bound, ControllerActivated(acknowledged));
    if acknowledged {
      assert t == p.(control := Adopting);
    } else {
      assert t == p.(control := Free, policy := p.control.prior, error := true);
    }
  }

  /** Without a receipt nothing happens. */
  lemma ActivateRefused(p: Provider, bound: nat, version: nat, acknowledged: bool)
    requires p.control.Free? && !p.ready
    ensures Next(Next(Next(p, bound, ActivateAsked(version)), bound, ControllerActivated(acknowledged)), bound, CallWrites) == p
  {
    assert Next(p, bound, ActivateAsked(version)) == p;
    assert Next(p, bound, ControllerActivated(acknowledged)) == p;
  }

  lemma ResumeCall(p: Provider, bound: nat, acknowledged: bool)
    requires p.control.Free? && (p.timedOut ==> p.error) && !p.ready
    ensures Next(Next(Next(p, bound, ResumeAsked), bound, ControllerResumed(acknowledged)), bound, CallWrites) ==
              if acknowledged && !p.closing && !p.error && !p.cancelled then p.(paused := false, streamPaused := false) else p
  {
    var t := Next(p, bound, ResumeAsked);
    if p.closing || p.error {
      assert t == p;
      assert Next(p, bound, ControllerResumed(acknowledged)) == p;
    } else {
      assert t == p.(control := Resuming);
      ResumeAnswered(t, bound, acknowledged);
    }
  }

  lemma ResumeAnswered(p: Provider, bound: nat, acknowledged: bool)
    requires p.control.Resuming? && !p.timedOut && !p.ready
    ensures Next(Next(p, bound, ControllerResumed(acknowledged)), bound, CallWrites) ==
              if acknowledged && !p.cancelled then p.(control := Free, paused := false, streamPaused := false)
              else p.(control := Free)
  {
    var t := Next(p, bound, ControllerResumed(acknowledged));
    if acknowledged && !p.cancelled {
      assert t == p.(control := Reopening);
    } else {
      assert t == p.(control := Free);
    }
  }

  function Pausing(proven: bool): seq<Event> {
    [PauseAsked, DrainObserved, ControllerPaused(proven), CallWrites]
  }

  function Activation(version: nat, acknowledged: bool): seq<Event> {
    [ActivateAsked(version), ControllerActivated(acknowledged), CallWrites]
  }

  function Resumption(acknowledged: bool): seq<Event> {
    [ResumeAsked, ControllerResumed(acknowledged), CallWrites]
  }

  lemma RunThree(initial: Provider, bound: nat, events: seq<Event>, a: Event, b: Event, c: Event)
    ensures Run(initial, bound, events + [a, b, c]) == Next(Next(Next(Run(initial, bound, events), bound, a), bound, b), bound, c)
  {
    hide Run, Next;
    RunAppends(initial, bound, events, a);
    RunAppends(initial, bound, events + [a], b);
    RunAppends(initial, bound, events + [a] + [b], c);
    assert events + [a] + [b] + [c] == events + [a, b, c];
  }

  lemma RunFour(initial: Provider, bound: nat, events: seq<Event>, a: Event, b: Event, c: Event, d: Event)
    ensures Run(initial, bound, events + [a, b, c, d])
              == Next(Next(Next(Next(Run(initial, bound, events), bound, a), bound, b), bound, c), bound, d)
  {
    hide Run, Next;
    RunThree(initial, bound, events, a, b, c);
    RunAppends(initial, bound, events + [a, b, c], d);
    assert events + [a, b, c] + [d] == events + [a, b, c, d];
  }

  /** A whole turn of the learner with no group in flight: it pauses, activates a version and resumes. A receipt is
      granted exactly if the controller proves the drain of a provider without error or cancellation; with it the
      version is installed exactly if the provider is not closing, the version is newer and the controller
      acknowledges it; if the controller does not, the old policy stays and an error is recorded; and the provider
      reopens exactly if the controller acknowledges it and there is neither error, cancellation nor closing. */
  lemma LearnerTurn(initial: Provider, bound: nat, before: seq<Event>, version: nat, proven: bool, acknowledged: bool, resumed: bool)
    requires GoodStart(initial, bound)
    requires Run(initial, bound, before).control.Free? && !Run(initial, bound, before).active
    ensures var (p, t) := (Run(initial, bound, before),
                           Run(initial, bound, before + Pausing(proven) + Activation(version, acknowledged) + Resumption(resumed)));
            var granted := proven && !p.error && !p.cancelled;
            var tried := granted && !p.closing && version > p.policy;
            var reopened := resumed && !p.closing && !p.error && !p.cancelled && (tried ==> acknowledged);
            && t.control.Free? && !t.ready && t.producer == p.producer && t.retained == p.retained
            && t.installed == (if tried && acknowledged then p.installed + [version] else p.installed)
            && t.policy == t.acknowledged == (if tried && acknowledged then version else p.policy)
            && (t.error <==> p.error || (tried && !acknowledged))
            && t.drains == p.drains + (if granted then 1 else 0) && t.spent == p.spent + (if granted then 1 else 0)
            && t.paused == t.streamPaused == !reopened
  {
    hide Next, Run, Sound, GoodStart;
    var p := Run(initial, bound, before);
    RunSound(initial, bound, before);
    SoundPolicies(p, bound);
    FreePolicy(p, bound);
    RunFour(initial, bound, before, PauseAsked, DrainObserved, ControllerPaused(proven), CallWrites);
    PauseCall(p, bound, proven);
    var paused := before + Pausing(proven);
    var q := Run(initial, bound, paused);
    RunThree(initial, bound, paused, ActivateAsked(version), ControllerActivated(acknowledged), CallWrites);
    if q.ready {
      ActivateCall(q, bound, version, acknowledged);
    } else {
      ActivateRefused(q, bound, version, acknowledged);
    }
    var activated := paused + Activation(version, acknowledged);
    RunThree(initial, bound, activated, ResumeAsked, ControllerResumed(resumed), CallWrites);
    ResumeCall(Run(initial, bound, activated), bound, resumed);
  }

  lemma FreePolicy(p: Provider, bound: nat)
    requires Sound(p, bound) && p.control.Free?
    ensures p.policy == p.acknowledged
  {
    hide Cursors, OnePolicy, Receipts, Increasing;
  }

  // ----- a turn of the producer

  /** The producer's own steps, for one group. */
  lemma GroupCall(p: Provider, bound: nat, registered: nat, wellFormed: bool, ok: bool, excluded: bool)
    requires p.producer.Waiting? && !Writing(p)
    ensures Next(Next(Next(p, bound, Leased), bound, PlansReady(registered, wellFormed)), bound, GroupEnded(ok, excluded)) ==
              if p.paused || p.closing || |p.retained| >= bound then p
              else if !wellFormed || registered != p.policy then p.(producer := Failed, error := true, paused := true, active := false)
              else if !ok then p.(producer := Failed, error := true, paused := true, active := false, nextGroup := p.nextGroup + 1)
              else p.(active := false, paused := p.cancelled, nextGroup := p.nextGroup + 1,
                      retained := p.retained[p.nextGroup := Packet(registered, p.acknowledged, excluded, false)])
  {
    var t := Next(p, bound, Leased);
    if p.paused || p.closing || |p.retained| >= bound {
      assert t == p;
      assert Next(p, bound, PlansReady(registered, wellFormed)) == p;
    } else {
      assert t == p.(producer := Planning(p.policy), active := true);
      PlansCall(t, bound, registered, wellFormed, ok, excluded);
    }
  }

  lemma PlansCall(p: Provider, bound: nat, registered: nat, wellFormed: bool, ok: bool, excluded: bool)
    requires p.producer.Planning? && !Writing(p) && !p.paused
    ensures Next(Next(p, bound, PlansReady(registered, wellFormed)), bound, GroupEnded(ok, excluded)) ==
              if !wellFormed || registered != p.policy then p.(producer := Failed, error := true, paused := true, active := false)
              else if !ok then p.(producer := Failed, error := true, paused := true, active := false, nextGroup := p.nextGroup + 1)
              else p.(producer := Waiting, active := false, paused := p.cancelled, nextGroup := p.nextGroup + 1,
                      retained := p.retained[p.nextGroup := Packet(registered, p.acknowledged, excluded, false)])
  {
    var t := Next(p, bound, PlansReady(registered, wellFormed));
    if !wellFormed || registered != p.policy {
      assert t == p.(producer := Failed, error := true, paused := true, active := false);
    } else {
      assert t == p.(producer := Executing(p.nextGroup, registered), nextGroup := p.nextGroup + 1);
    }
  }

  function Grouping(registered: nat, wellFormed: bool, ok: bool, excluded: bool): seq<Event> {
    [Leased, PlansReady(registered, wellFormed), GroupEnded(ok, excluded)]
  }

  /** A whole turn of the producer. It takes place exactly if the provider is open and has room; it leaves a packet,
      under the next id and the last installed policy, exactly if the plans are well formed and registered under that
      policy and the group completes; if not, the producer has failed and an error is recorded. */
  lemma ProducerTurn(initial: Provider, bound: nat, before: seq<Event>, registered: nat, wellFormed: bool, ok: bool, excluded: bool)
    requires GoodStart(initial, bound)
    requires Run(initial, bound, before).producer.Waiting? && !Writing(Run(initial, bound, before))
    ensures var (p, t) := (Run(initial, bound, before), Run(initial, bound, before + Grouping(registered, wellFormed, ok, excluded)));
            var open := !p.paused && !p.closing && |p.retained| < bound;
            && p.installed != []
            && var planned := open && wellFormed && registered == p.installed[|p.installed| - 1];
               && t.nextGroup == p.nextGroup + (if planned then 1 else 0)
               && t.retained == (if planned && ok then p.retained[p.nextGroup := Packet(registered, registered, excluded, false)] else p.retained)
               && (t.producer.Failed? <==> open && !(planned && ok)) && (t.producer.Failed? || t.producer.Waiting?)
               && (t.error <==> p.error || t.producer.Failed?) && t.active == p.active && t.installed == p.installed
               && (t.paused <==> p.paused || t.producer.Failed? || (open && p.cancelled))
  {
    hide *;
    var p := Run(initial, bound, before);
    RunSound(initial, bound, before);
    SoundPolicies(p, bound);
    OpenPolicy(p, bound);
    RunGroup(initial, bound, before, registered, wellFormed, ok, excluded);
    GroupCall(p, bound, registered, wellFormed, ok, excluded);
    if p.paused || p.closing || |p.retained| >= bound {
    } else if !wellFormed || registered != p.policy {
    } else if !ok {
    } else {
    }
  }

  lemma RunGroup(initial: Provider, bound: nat, before: seq<Event>, registered: nat, wellFormed: bool, ok: bool, excluded: bool)
    ensures Run(initial, bound, before + Grouping(registered, wellFormed, ok, excluded)) ==
              Next(Next(Next(Run(initial, bound, before), bound, Leased), bound, PlansReady(registered, wellFormed)),
                   bound, GroupEnded(ok, excluded))
  {
    hide Run, Next;
    RunThree(initial, bound, before, Leased, PlansReady(registered, wellFormed), GroupEnded(ok, excluded));
  }

  lemma OpenPolicy(p: Provider, bound: nat)
    requires Sound(p, bound)
    ensures p.producer.Waiting? ==> !p.active
    ensures !p.paused ==> p.policy == p.acknowledged == p.installed[|p.installed| - 1]
  {
    hide Cursors, OnePolicy, Receipts, Increasing;
  }

  /** Nothing is leased any more once the provider is closing. */
  lemma ClosedLeasesNothing(initial: Provider, bound: nat, before: seq<Event>, after: seq<Event>)
    requires Run(initial, bound, before).closing && !Run(initial, bound, before).producer.Planning?
    ensures Run(initial, bound, before + after).closing && !Run(initial, bound, before + after).producer.Planning?
    ensures Run(initial, bound, before + after).nextGroup == Run(initial, bound, before).nextGroup
    decreases |after|
  {
    hide Next;
    if after == [] {
      assert before + after == before;
    } else {
      var front := after[..|after| - 1];
      assert before + after == (before + front) + [after[|after| - 1]];
      ClosedLeasesNothing(initial, bound, before, front);
      RunAppends(initial, bound, before + front, after[|after| - 1]);
      StaysClosed(Run(initial, bound, before + front), bound, after[|after| - 1]);
    }
  }

  predicate NothingLeased(p: Provider, t: Provider) {
    t.closing && !t.producer.Planning? && t.nextGroup == p.nextGroup
  }

  lemma ProducerClosed(p: Provider, bound: nat, registered: nat, flag: bool, excluded: bool)
    requires p.closing && !p.producer.Planning?
    ensures NothingLeased(p, Lease(p, bound)) && NothingLeased(p, Planned(p, registered, flag))
    ensures NothingLeased(p, Completed(p, flag, excluded))
  {
  }

  lemma GetClosed(p: Provider)
    requires p.closing && !p.producer.Planning?
    ensures NothingLeased(p, Get(p))
  {
    hide OldestUndelivered;
  }

  lemma CommitClosed(p: Provider, stop: nat, consumed: set<nat>)
    requires p.closing && !p.producer.Planning?
    ensures NothingLeased(p, Commit(p, stop, consumed))
  {
    hide Committable;
  }

  lemma PauseClosed(p: Provider, answer: bool)
    requires p.closing && !p.producer.Planning?
    ensures NothingLeased(p, BeginPause(p)) && NothingLeased(p, Drained(p)) && NothingLeased(p, PauseEnds(p, answer).0)
  {
    hide TakeSnapshot;
  }

  lemma ActivationClosed(p: Provider, version: nat, answer: bool)
    requires p.closing && !p.producer.Planning?
    ensures NothingLeased(p, BeginActivation(p, version)) && NothingLeased(p, ActivationEnds(p, answer).0)
  {
  }

  lemma ResumeClosed(p: Provider, answer: bool)
    requires p.closing && !p.producer.Planning?
    ensures NothingLeased(p, BeginResume(p)) && NothingLeased(p, ResumeEnds(p, answer).0)
  {
  }

  lemma StaysClosed(p: Provider, bound: nat, event: Event)
    requires p.closing && !p.producer.Planning?
    ensures NothingLeased(p, Next(p, bound, event))
  {
    hide Lease, Planned, Completed, BeginPause, Drained, PauseEnds, BeginActivation, ActivationEnds, BeginResume, ResumeEnds;
    hide Get, Commit, Writing, Written;
    match event
    case Leased => ProducerClosed(p, bound, 0, false, false);
    case PlansReady(registered, wellFormed) => ProducerClosed(p, bound, registered, wellFormed, false);
    case GroupEnded(ok, excluded) => ProducerClosed(p, bound, 0, ok, excluded);
    case PauseAsked => PauseClosed(p, false);
    case DrainObserved => PauseClosed(p, false);
    case ControllerPaused(proven) => PauseClosed(p, proven);
    case ActivateAsked(version) => ActivationClosed(p, version, false);
    case ControllerActivated(acknowledged) => ActivationClosed(p, 0, acknowledged);
    case ResumeAsked => ResumeClosed(p, false);
    case ControllerResumed(acknowledged) => ResumeClosed(p, acknowledged);
    case CallWrites => Writes(p);
    case CallerGaveUp =>
    case StreamCancelled =>
    case CloseAsked =>
    case PacketTaken => GetClosed(p);
    case GroupsCommitted(stop, consumed) => CommitClosed(p, stop, consumed);
  }

  // ----- taking and committing packets

  predicate LowerDelivered(retained: map<nat, Packet>, id: nat) {
    forall other :: other in retained && other < id ==> retained[other].delivered
  }

  lemma {:induction false} OldestIs(retained: map<nat, Packet>, low: nat, high: nat)
    requires low <= high
    ensures var found := OldestUndelivered(retained, low, high);
            && (found.Some? ==>
                  low <= found.value < high && found.value in retained && !retained[found.value].delivered)
            && forall id :: id in retained && low <= id < (if found.Some? then found.value else high) ==> retained[id].delivered
    decreases high - low
  {
    if low < high && !(low in retained && !retained[low].delivered) {
      OldestIs(retained, low + 1, high);
    }
  }

  /** Packets are taken one by one, the oldest first, and stay until they are committed. */
  lemma TakenInOrder(initial: Provider, bound: nat, before: seq<Event>)
    requires GoodStart(initial, bound) && !Writing(Run(initial, bound, before))
    ensures var (was, retained) := (Run(initial, bound, before).retained, Run(initial, bound, before + [PacketTaken]).retained);
            && retained.Keys == was.Keys
            && forall id :: id in was ==>
                 retained[id] == was[id].(delivered := was[id].delivered || LowerDelivered(was, id))
  {
    hide Run, Next, Sound, GoodStart, OldestUndelivered;
    var p := Run(initial, bound, before);
    RunSound(initial, bound, before);
    RunAppends(initial, bound, before, PacketTaken);
    TakeIs(p, bound);
    OldestIs(p.retained, 0, p.nextGroup);
    RetainedBelow(p, bound);
    var found, t := OldestUndelivered(p.retained, 0, p.nextGroup), Get(p);
    assert t.retained.Keys == p.retained.Keys;
    forall id | id in p.retained
      ensures t.retained[id] == p.retained[id].(delivered := p.retained[id].delivered || LowerDelivered(p.retained, id))
    {
      if found.Some? && id > found.value {
        assert !LowerDelivered(p.retained, id);
      }
    }
  }

  lemma TakeIs(p: Provider, bound: nat)
    requires !Writing(p)
    ensures Next(p, bound, PacketTaken) == Get(p)
  {
    hide Get;
  }

  lemma CommitIs(p: Provider, bound: nat, stop: nat, consumed: set<nat>)
    requires !Writing(p)
    ensures Next(p, bound, GroupsCommitted(stop, consumed)) == Commit(p, stop, consumed)
  {
    hide Commit;
  }

  lemma RetainedBelow(p: Provider, bound: nat)
    requires Sound(p, bound)
    ensures p.committed <= p.nextGroup && forall id :: id in p.retained ==> p.committed <= id < p.nextGroup
  {
    hide OnePolicy, Policies, Receipts, Gates;
  }

  function OldestTo(p: Provider, stop: nat): set<nat> {
    set id | id in p.retained && id < stop
  }

  /** All that is retained before `stop` is delivered, nothing is missing from it, and nothing excluded was trained on. */
  predicate PrefixIsDone(p: Provider, stop: nat, consumed: set<nat>) {
    && p.committed <= stop && consumed <= OldestTo(p, stop)
    && (forall id: nat :: p.committed <= id < stop ==> id in OldestTo(p, stop))
    && (forall id :: id in OldestTo(p, stop) ==> p.retained[id].delivered)
    && (forall id :: id in consumed ==> !p.retained[id].excluded)
  }

  /** A commit succeeds, and removes exactly what was retained before `stop`, if that is so; otherwise nothing changes. */
  lemma CommitsIff(initial: Provider, bound: nat, before: seq<Event>, stop: nat, consumed: set<nat>)
    requires GoodStart(initial, bound) && !Writing(Run(initial, bound, before))
    ensures var (p, t) := (Run(initial, bound, before), Run(initial, bound, before + [GroupsCommitted(stop, consumed)]));
            if PrefixIsDone(p, stop, consumed) then t.committed == stop && t.retained == p.retained - OldestTo(p, stop)
            else t == p
  {
    hide Run, Next, Sound, GoodStart, PrefixIsDone, OldestTo, Committable;
    var p := Run(initial, bound, before);
    RunSound(initial, bound, before);
    RunAppends(initial, bound, before, GroupsCommitted(stop, consumed));
    CommitIs(p, bound, stop, consumed);
    RetainedBelow(p, bound);
    CommittableIff(p, stop, consumed);
    Removed(p, stop);
  }

  lemma CommittableIff(p: Provider, stop: nat, consumed: set<nat>)
    requires p.committed <= p.nextGroup && forall id :: id in p.retained ==> p.committed <= id < p.nextGroup
    ensures Committable(p, stop, consumed) <==> PrefixIsDone(p, stop, consumed)
  {
    if PrefixIsDone(p, stop, consumed) && p.committed < stop {
      assert stop - 1 in OldestTo(p, stop);
    }
    if PrefixIsDone(p, stop, consumed) {
      forall id: nat | p.committed <= id < stop
        ensures id in p.retained && p.retained[id].delivered && (id in consumed ==> !p.retained[id].excluded)
      {
        assert id in OldestTo(p, stop);
      }
      forall id | id in consumed ensures p.committed <= id < stop {
        assert id in OldestTo(p, stop);
      }
    }
  }

  lemma Removed(p: Provider, stop: nat)
    ensures (map id | id in p.retained && stop <= id :: p.retained[id]) == p.retained - OldestTo(p, stop)
  {
  }

  // ----- flags that stay

  /** The event has come when the loop could take it; a caller may give up at any time. */
  ghost predicate Happened(initial: Provider, bound: nat, events: seq<Event>, event: Event) {
    if events == [] then false
    else
      var front := events[..|events| - 1];
      || Happened(initial, bound, front, event)
      || (events[|events| - 1] == event && (event == CallerGaveUp || !Writing(Run(initial, bound, front))))
  }

  predicate SameFlags(p: Provider, t: Provider) {
    t.cancelled == p.cancelled && t.closing == p.closing && t.timedOut == p.timedOut
  }

  lemma LeaseFlags(p: Provider, bound: nat)
    ensures SameFlags(p, Lease(p, bound))
  {
  }

  lemma PlannedFlags(p: Provider, registered: nat, flag: bool)
    ensures SameFlags(p, Planned(p, registered, flag))
  {
  }

  lemma CompletedFlags(p: Provider, flag: bool, excluded: bool)
    ensures SameFlags(p, Completed(p, flag, excluded))
  {
  }

  lemma GetFlags(p: Provider)
    ensures SameFlags(p, Get(p))
  {
    hide OldestUndelivered;
  }

  lemma CommitFlags(p: Provider, stop: nat, consumed: set<nat>)
    ensures SameFlags(p, Commit(p, stop, consumed))
  {
    hide Committable;
  }

  lemma PauseFlags(p: Provider)
    ensures SameFlags(p, BeginPause(p)) && SameFlags(p, Drained(p))
  {
  }

  lemma PauseAnswerFlags(p: Provider, answer: bool)
    ensures SameFlags(p, PauseEnds(p, answer).0)
  {
    hide TakeSnapshot;
  }

  lemma ActivationFlags(p: Provider, version: nat)
    ensures SameFlags(p, BeginActivation(p, version))
  {
  }

  lemma ActivationAnswerFlags(p: Provider, answer: bool)
    ensures SameFlags(p, ActivationEnds(p, answer).0)
  {
  }

  lemma ResumeFlags(p: Provider, answer: bool)
    ensures SameFlags(p, BeginResume(p)) && SameFlags(p, ResumeEnds(p, answer).0)
  {
  }

  lemma FlagsNext(p: Provider, bound: nat, event: Event)
    ensures var t := Next(p, bound, event);
            && (t.cancelled <==> p.cancelled || (event == StreamCancelled && !Writing(p)))
            && (t.closing <==> p.closing || (event == CloseAsked && !Writing(p)))
            && (t.timedOut <==> p.timedOut || event == CallerGaveUp)
  {
    hide Lease, Planned, Completed, BeginPause, Drained, PauseEnds, BeginActivation, ActivationEnds, BeginResume, ResumeEnds;
    hide Get, Commit, Writing, Written;
    match event
    case Leased => LeaseFlags(p, bound);
    case PlansReady(registered, wellFormed) => PlannedFlags(p, registered, wellFormed);
    case GroupEnded(ok, excluded) => CompletedFlags(p, ok, excluded);
    case PauseAsked => PauseFlags(p);
    case DrainObserved => PauseFlags(p);
    case ControllerPaused(proven) => PauseAnswerFlags(p, proven);
    case ActivateAsked(version) => ActivationFlags(p, version);
    case ControllerActivated(acknowledged) => ActivationAnswerFlags(p, acknowledged);
    case ResumeAsked => ResumeFlags(p, false);
    case ControllerResumed(acknowledged) => ResumeFlags(p, acknowledged);
    case CallWrites => Writes(p);
    case CallerGaveUp =>
    case StreamCancelled =>
    case CloseAsked =>
    case PacketTaken => GetFlags(p);
    case GroupsCommitted(stop, consumed) => CommitFlags(p, stop, consumed);
  }

  /** The provider is cancelled, closing or timed out exactly from the event on that says so. */
  lemma {:induction false} FlagsIff(initial: Provider, bound: nat, events: seq<Event>)
    requires GoodStart(initial, bound)
    ensures var p := Run(initial, bound, events);
            && (p.cancelled <==> Happened(initial, bound, events, StreamCancelled))
            && (p.closing <==> Happened(initial, bound, events, CloseAsked))
            && (p.timedOut <==> Happened(initial, bound, events, CallerGaveUp))
  {
    hide Next, Writing, Cursors, OnePolicy;
    if events != [] {
      FlagsIff(initial, bound, events[..|events| - 1]);
      FlagsNext(Run(initial, bound, events[..|events| - 1]), bound, events[|events| - 1]);
    }
  }
}
