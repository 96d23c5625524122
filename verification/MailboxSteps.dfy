/** What each side of the mailbox does when it can, and what a run adds up to: every step is checkpointed, so that a
    restart loses none, and every committed group was trained on or dropped. */
module MailboxSteps {
  import opened Basics
  import opened RowIds
  import opened Wrappers
  import opened MailboxSpec
  import opened MailboxTheorems

  // ----- what a run adds up to

  function Trainings(config: Config, step: nat): nat {
    step * config.groupsPerStep
  }

  lemma OneMore(config: Config, step: nat)
    ensures Trainings(config, step + 1) == Trainings(config, step) + config.groupsPerStep
    ensures Trainings(config, 0) == 0
  {
  }

  function SavedStep(checkpoint: Option<Checkpoint>): nat {
    match checkpoint
    case None => 0
    case Some(c) => c.step
  }

  /** Every committed group was trained on in a step of its own, or dropped. */
  predicate Balanced(config: Config, committed: nat, dropped: nat, step: nat) {
    committed == dropped + Trainings(config, step)
  }

  ghost predicate Tallied(config: Config, w: World) {
    && (w.manager.paused <==> w.pausing)
    && w.step == SavedStep(w.checkpoint) && (w.checkpoint.Some? <==> w.step > 0)
    && Balanced(config, w.manager.committed, w.manager.dropped, w.step)
    && (w.checkpoint.Some? ==>
          var s := w.checkpoint.value.snapshot;
          && Balanced(config, s.committed, s.dropped, w.step)
          && s.committed <= w.manager.committed && s.dropped <= w.manager.dropped && s.nextGroup <= w.manager.nextGroup)
  }

  // ----- what the events do

  /** The learner's step, with what it finds in the mailbox. */
  lemma TrainDoes(config: Config, w: World)
    requires Running(config, w) && w.pausing && w.manager.active.None?
    ensures var (m, t) := (w.manager, Train(w));
            && t.manager == m.(committed := m.committed + |w.groups|, retained := t.manager.retained,
                               policy := w.step + 1, paused := false)
            && t.step == w.step + 1 && t.groups == [] && !t.pausing && t.failure == w.failure
            && t.checkpoint == Some(Checkpoint(w.step + 1,
                 Snapshot(m.nextGroup, m.committed + |w.groups|, t.manager.retained, m.dropped)))
    ensures forall id: nat :: id in Train(w).manager.retained <==> id in w.manager.retained && w.manager.committed + |w.groups| <= id
    ensures forall id: nat :: id in Train(w).manager.retained ==> Train(w).manager.retained[id] == w.manager.retained[id]
  {
    hide Accepts, Commit, FromCursor, Contiguous, Monotone, DeliveredPrefix, IssuedInOrder, Without;
    FromHolding(config, w);
    CommitMoves(config, w.manager, |w.groups|, w.groups, false);
    AcceptsFromCursor(config, w.manager, |w.groups|, w.groups);
    CommitIs(w.manager, w.groups, false);
    LeftFromCursor(w.manager, w.groups);
  }

  lemma FromHolding(config: Config, w: World)
    requires Running(config, w)
    ensures FromCursor(w.manager, w.groups) && DeliveredPrefix(w.manager.retained, w.manager.committed, |w.groups|)
    ensures w.manager.committed + |w.groups| <= Stop(w.manager)
    ensures Contiguous(w.manager.retained, w.manager.active, w.manager.committed, w.manager.nextGroup)
  {
    hide Contiguous, Monotone, IssuedInOrder, DeliveredPrefix;
  }

  lemma AcceptsFromCursor(config: Config, m: Manager, count: nat, ids: seq<int>)
    requires ManagerOk(config, m) && DeliveredPrefix(m.retained, m.committed, count) && m.committed + count <= Stop(m)
    requires |ids| <= count && FromCursor(m, ids)
    ensures Accepts(m, ids, []) && Accepts(m, [], ids)
  {
    hide Accepts, Monotone, IssuedInOrder;
    CursorAscends(m, ids);
    AcceptsAscending(m, count, ids);
  }

  /** What becomes of the next packet. */
  datatype Fate = NotYet | Kept | Dropped | Refusal

  /** The learner wants one more group, and the next one has been sampled. */
  predicate Takes(config: Config, w: World) {
    |w.groups| < config.groupsPerStep && !w.pausing && w.manager.committed + |w.groups| < Stop(w.manager)
  }

  predicate TooOld(config: Config, step: nat, slot: Slot) {
    step > slot.version + config.maxLag
  }

  function FateOf(config: Config, w: World): Fate {
    var next := w.manager.committed + |w.groups|;
    if !Takes(config, w) || next !in w.manager.retained then NotYet
    else if w.manager.retained[next].excluded && w.groups != [] then Refusal
    else if w.manager.retained[next].excluded || TooOld(config, w.step, w.manager.retained[next]) then Dropped
    else Kept
  }

  /** The packet is kept for the step, or dropped with the cursor past it, or nothing happens. */
  lemma ReceiveDoes(config: Config, w: World)
    requires Running(config, w) && w.failure == None
    ensures var (m, t, next) := (w.manager, Receive(config, w), w.manager.committed + |w.groups|);
            && (Takes(config, w) ==> next in m.retained)
            && (match FateOf(config, w)
                case NotYet => t == w
                case Kept => && next in m.retained
                             && t == w.(groups := w.groups + [next], manager := t.manager)
                             && t.manager == m.(retained := m.retained[next := m.retained[next].(delivered := true)])
                case Dropped => && t == w.(manager := t.manager) && w.groups == []
                                && t.manager == m.(committed := m.committed + 1, dropped := m.dropped + 1,
                                                   retained := t.manager.retained)
                                && t.manager.retained.Keys == m.retained.Keys - {next}
                case Refusal => t.failure == Some(CommitRejected))
  {
    hide Running, DropPacket, Get, Delivered, Without;
    RunningManager(config, w);
    GetIsNext(config, w.manager, w.step, w.groups);
    var next := w.manager.committed + |w.groups|;
    if Takes(config, w) {
      var taken := Get(w.manager).0;
      IsDeliveredNow(w.manager, next, taken);
      VersionsAreKnown(config, w, next);
      DropDoes(config, w, taken, next);
      if w.groups != [] {
        KeptThenFresh(config, w, next);
      }
    }
  }

  lemma DropDoes(config: Config, w: World, taken: Manager, next: nat)
    requires Running(config, w) && next == w.manager.committed + |w.groups| < Stop(w.manager)
    requires Delivered(w.manager, next, taken)
    ensures var t := DropPacket(w.(manager := taken), next);
            if w.groups == [] then
              && t == w.(manager := t.manager)
              && t.manager == w.manager.(committed := w.manager.committed + 1, dropped := w.manager.dropped + 1,
                                         retained := t.manager.retained)
              && t.manager.retained.Keys == w.manager.retained.Keys - {next}
            else t == w.(manager := taken, failure := Some(CommitRejected))
  {
    hide IssuedInOrder, Accepts, Commit, Monotone, Without, Contiguous;
    DeliveredOk(config, w.manager, |w.groups|, taken);
    DropRuns(config, w, taken, next);
    if w.groups == [] {
      assert FromCursor(taken, [next]);
      AcceptsFromCursor(config, taken, 1, [next]);
      CommitIs(taken, [next], true);
      assert Without(taken.retained, [next]).Keys == w.manager.retained.Keys - {next};
    }
  }

  /** The queued packets are those between the delivered prefix and the end of the range. */
  lemma {:induction false} QueuedIs(retained: map<nat, Slot>, committed: nat, count: nat, stop: nat, high: nat)
    requires forall id: nat :: id in retained <==> committed <= id < stop
    requires DeliveredPrefix(retained, committed, count)
    ensures var upper := if high < stop then high else stop;
            Queued(retained, high) == if upper <= committed + count then 0 else upper - committed - count
  {
    if high > 0 {
      QueuedIs(retained, committed, count, stop, high - 1);
    }
  }

  /** There is mailbox credit, and the manager may use it. */
  predicate CanDispatch(config: Config, m: Manager, kept: nat) {
    && !m.paused && m.active.None?
    && m.nextGroup < m.committed + config.queueCapacity + config.groupsPerStep
    && m.nextGroup < m.committed + kept + config.queueCapacity
  }

  lemma DispatchDoes(config: Config, w: World)
    requires Running(config, w)
    ensures var (m, t) := (w.manager, Dispatch(config, w.manager));
            if CanDispatch(config, m, |w.groups|) then
              t == m.(nextGroup := m.nextGroup + 1, active := Some(Flight(m.nextGroup, w.step)),
                      issued := m.issued + [Issue(m.epoch, m.nextGroup)])
            else t == m
  {
    hide Monotone, IssuedInOrder, Queued;
    RetainedWithinBound(config, w.manager);
    if w.manager.active.None? {
      QueuedIs(w.manager.retained, w.manager.committed, |w.groups|, Stop(w.manager), w.manager.nextGroup);
    }
  }

  /** A restart resumes what the last checkpoint saved, with nothing delivered; without one it starts afresh. */
  lemma RestartDoes(config: Config, w: World)
    requires Running(config, w) && w.failure == None
    ensures var (m, t) := (w.manager, Restart(config, w));
            && t == w.(manager := t.manager, step := SavedStep(w.checkpoint), groups := [], pausing := false)
            && t.manager.active == None && !t.manager.paused && t.manager.issued == m.issued && t.manager.policy == t.step
            && t.manager.epoch == m.epoch + 1
            && (match w.checkpoint
                case None => t.manager.nextGroup == t.manager.committed == t.manager.dropped == 0 && t.manager.retained == map[]
                case Some(c) =>
                  && t.manager.nextGroup == c.snapshot.nextGroup && t.manager.committed == c.snapshot.committed
                  && t.manager.dropped == c.snapshot.dropped && t.manager.retained.Keys == c.snapshot.retained.Keys
                  && forall id :: id in c.snapshot.retained ==>
                       t.manager.retained[id] == c.snapshot.retained[id].(delivered := false))
  {
    hide Running, Restorable;
    RunningManager(config, w);
    if w.checkpoint.Some? {
      SavedIsRestorable(config, w.checkpoint.value);
    }
  }

  // ----- over whole runs

  lemma StartTallied(config: Config)
    ensures Tallied(config, Start())
  {
    OneMore(config, 0);
  }

  lemma TrainTallied(config: Config, w: World)
    requires Running(config, w) && Tallied(config, w)
    ensures Tallied(config, Train(w))
  {
    hide Running, Train, Trainings;
    if w.pausing && w.manager.active.None? {
      TrainDoes(config, w);
      OneMore(config, w.step);
      PausingHasAll(config, w);
    } else {
      TrainWaits(w);
    }
  }

  lemma PausingHasAll(config: Config, w: World)
    requires Running(config, w)
    ensures w.pausing ==> |w.groups| == config.groupsPerStep
    ensures |w.groups| <= config.groupsPerStep
  {
    hide ManagerOk, Saved, DeliveredPrefix;
  }

  lemma TrainWaits(w: World)
    requires !w.pausing || w.manager.active.Some?
    ensures Train(w) == w
  {
  }

  lemma ReceiveTallied(config: Config, w: World)
    requires Running(config, w) && w.failure == None && Tallied(config, w)
    ensures FateOf(config, w) != Refusal ==> Tallied(config, Receive(config, w))
  {
    hide Running, Receive, Trainings, Takes;
    ReceiveDoes(config, w);
  }

  lemma DispatchTallied(config: Config, w: World)
    requires Running(config, w) && Tallied(config, w)
    ensures Tallied(config, w.(manager := Dispatch(config, w.manager)))
  {
    hide Running, Dispatch, Trainings, CanDispatch;
    DispatchDoes(config, w);
  }

  lemma RestartTallied(config: Config, w: World)
    requires Running(config, w) && w.failure == None && Tallied(config, w)
    ensures Tallied(config, Restart(config, w))
  {
    hide Running, Restart, Trainings;
    RestartDoes(config, w);
    OneMore(config, 0);
  }

  lemma NextTallied(config: Config, w: World, event: Event)
    requires Running(config, w) && w.failure == None && Tallied(config, w)
    ensures Next(config, w, event).failure == None ==> Tallied(config, Next(config, w, event))
  {
    hide Running, Dispatch, Receive, Train, Restart, Trainings;
    match event
    case Dispatched => DispatchTallied(config, w);
    case GroupSampled(_) =>
    case Received =>
      ReceiveTallied(config, w);
      ReceiveDoes(config, w);
    case PauseAsked =>
    case Trained => TrainTallied(config, w);
    case Restarted => RestartTallied(config, w);
  }

  lemma {:induction false} RunTallied(config: Config, events: seq<Event>)
    requires config.Valid() && Run(config, events).failure == None
    ensures Tallied(config, Run(config, events))
  {
    hide Running, Next, Tallied;
    if events == [] {
      StartTallied(config);
    } else {
      var w := Run(config, events[..|events| - 1]);
      if w.failure.Some? {
        FailureStays(config, w, events[|events| - 1]);
      } else {
        RunTallied(config, events[..|events| - 1]);
        RunIsSafe(config, events[..|events| - 1]);
        NextTallied(config, w, events[|events| - 1]);
      }
    }
  }

  /** At any time the learner's step is the one of its last checkpoint, and as many groups have been committed as
      were dropped or trained on, groupsPerStep of them in each step; the same holds of what the checkpoint keeps. */
  lemma EveryStepIsSaved(config: Config, events: seq<Event>)
    requires config.Valid() && Run(config, events).failure == None
    ensures var w := Run(config, events);
            && (w.checkpoint.Some? <==> w.step > 0)
            && w.manager.committed == w.manager.dropped + w.step * config.groupsPerStep
            && (w.checkpoint.Some? ==>
                  var c := w.checkpoint.value;
                  && c.step == w.step
                  && c.snapshot.committed == c.snapshot.dropped + w.step * config.groupsPerStep
                  && c.snapshot.committed <= w.manager.committed && c.snapshot.nextGroup <= w.manager.nextGroup)
  {
    hide Run;
    RunTallied(config, events);
  }

  /** So a restart, whenever it comes, keeps the learner's step: it loses drops and samples, but no training. */
  lemma RestartKeepsTheStep(config: Config, events: seq<Event>)
    requires config.Valid() && Run(config, events).failure == None
    ensures var (w, t) := (Run(config, events), Run(config, events + [Restarted]));
            && t.failure == None && t.step == w.step && t.manager.policy == w.step
            && t.manager.committed - t.manager.dropped == w.manager.committed - w.manager.dropped
            && t.manager.committed <= w.manager.committed && t.manager.nextGroup <= w.manager.nextGroup
  {
    hide Run, Running, Restart, Trainings;
    var w := Run(config, events);
    RunIsSafe(config, events);
    RunTallied(config, events);
    RunStep(config, events, Restarted);
    RestartIs(config, w);
    RestartDoes(config, w);
    RestartTallied(config, w);
  }

  lemma RestartIs(config: Config, w: World)
    requires w.failure == None
    ensures Next(config, w, Restarted) == Restart(config, w)
  {
    hide Restart;
  }

  lemma TrainIs(config: Config, w: World)
    requires w.failure == None
    ensures Next(config, w, Trained) == Train(w)
  {
    hide Train;
  }

  /** The learner trains exactly if it has its groups and the manager has drained. The step commits these groups, of
      which none was excluded or sampled too long ago, saves both sides as they then are, and resumes sampling under
      the new version. */
  lemma TrainsExactly(config: Config, events: seq<Event>)
    requires config.Valid() && Run(config, events).failure == None
    ensures var (w, t) := (Run(config, events), Run(config, events + [Trained]));
            if w.pausing && w.manager.active.None? then
              && t.step == w.step + 1 && t.groups == [] && !t.pausing && t.failure == None && !t.manager.paused
              && t.manager.policy == t.step && t.manager.committed == w.manager.committed + config.groupsPerStep
              && t.manager.nextGroup == w.manager.nextGroup && t.manager.dropped == w.manager.dropped
              && t.manager.active == None && t.manager.issued == w.manager.issued && t.manager.epoch == w.manager.epoch
              && (forall id: nat :: id in t.manager.retained <==> id in w.manager.retained && t.manager.committed <= id)
              && (forall id: nat :: id in t.manager.retained ==> t.manager.retained[id] == w.manager.retained[id])
              && (forall id: nat :: w.manager.committed <= id < t.manager.committed ==>
                    && id in w.manager.retained && w.manager.retained[id].delivered && !w.manager.retained[id].excluded
                    && w.step <= w.manager.retained[id].version + config.maxLag)
              && t.checkpoint == Some(Checkpoint(t.step,
                   Snapshot(t.manager.nextGroup, t.manager.committed, t.manager.retained, t.manager.dropped)))
            else t == w
  {
    hide Run, Running, Train;
    var w := Run(config, events);
    RunIsSafe(config, events);
    RunStep(config, events, Trained);
    TrainIs(config, w);
    if w.pausing && w.manager.active.None? {
      TrainDoes(config, w);
      PausingHasAll(config, w);
      GroupsAreGood(config, w);
    } else {
      TrainWaits(w);
    }
  }

  lemma GroupsAreGood(config: Config, w: World)
    requires Running(config, w)
    ensures forall id: nat :: w.manager.committed <= id < w.manager.committed + |w.groups| ==>
              && id in w.manager.retained && w.manager.retained[id].delivered && !w.manager.retained[id].excluded
              && w.step <= w.manager.retained[id].version + config.maxLag
  {
    hide Monotone, IssuedInOrder, Saved;
  }

  /** Nothing but a step raises the learner's step. */
  lemma OnlyTrainingSteps(config: Config, events: seq<Event>, event: Event)
    requires config.Valid() && Run(config, events).failure == None && Run(config, events + [event]).failure == None
    requires Run(config, events + [event]).step != Run(config, events).step
    ensures event == Trained && Run(config, events).pausing && Run(config, events).manager.active.None?
  {
    hide Run, Running, Train, Restart, Receive, Dispatch;
    var w := Run(config, events);
    RunIsSafe(config, events);
    RunStep(config, events, event);
    match event
    case Received => ReceiveDoes(config, w);
    case Trained => TrainsExactly(config, events);
    case Restarted => RestartKeepsTheStep(config, events);
    case _ =>
  }

  /** If everything stops right after a step, it resumes right there: with the step's version, both cursors, and the
      packets not trained on, to be delivered again. */
  lemma RestartAfterStep(config: Config, events: seq<Event>)
    requires config.Valid() && Run(config, events).failure == None
    requires Run(config, events).pausing && Run(config, events).manager.active.None?
    ensures var (w, t, r) := (Run(config, events), Run(config, events + [Trained]), Run(config, events + [Trained, Restarted]));
            && r.failure == None && r.step == t.step == w.step + 1 && r.manager.policy == t.manager.policy
            && r.manager.committed == t.manager.committed && r.manager.nextGroup == t.manager.nextGroup
            && r.manager.dropped == t.manager.dropped && r.checkpoint == t.checkpoint
            && r.manager.retained.Keys == t.manager.retained.Keys
            && (forall id :: id in t.manager.retained ==> r.manager.retained[id] == t.manager.retained[id].(delivered := false))
            && r.groups == t.groups == [] && !r.pausing && !r.manager.paused && r.manager.active == None
  {
    hide Run, Running, Restart;
    TrainsExactly(config, events);
    var stepped := events + [Trained];
    assert stepped + [Restarted] == events + [Trained, Restarted];
    RunIsSafe(config, stepped);
    RunStep(config, stepped, Restarted);
    RestartIs(config, Run(config, stepped));
    RestartDoes(config, Run(config, stepped));
  }

  /** The learner and the manager are never both stuck: short of a refusal some event, other than a restart, is due. */
  lemma AlwaysGoesOn(config: Config, events: seq<Event>)
    requires config.Valid() && Run(config, events).failure == None
    ensures exists event :: event != Restarted && Run(config, events + [event]) != Run(config, events)
  {
    hide Run, Running, Train, Receive, Dispatch, Next, Sampled;
    var w := Run(config, events);
    RunIsSafe(config, events);
    RunTallied(config, events);
    var event := Due(config, w);
    RunStep(config, events, event);
    DueMoves(config, w);
    assert Run(config, events + [event]) != Run(config, events);
  }

  function Due(config: Config, w: World): Event {
    if w.manager.active.Some? then GroupSampled(false)
    else if w.pausing then Trained
    else if |w.groups| >= config.groupsPerStep then PauseAsked
    else if w.manager.committed + |w.groups| < w.manager.nextGroup then Received
    else Dispatched
  }

  lemma DueMoves(config: Config, w: World)
    requires Running(config, w) && Tallied(config, w) && w.failure == None
    ensures Next(config, w, Due(config, w)) != w
  {
    hide Running, Tallied, Train, Receive, Dispatch;
    RunningBounds(config, w);
    Paused(config, w);
    if w.manager.active.Some? {
    } else if w.pausing {
      TrainDoes(config, w);
    } else if |w.groups| >= config.groupsPerStep {
    } else if w.manager.committed + |w.groups| < w.manager.nextGroup {
      ReceiveDoes(config, w);
      KeepChanges(w.groups, w.manager.committed + |w.groups|);
    } else {
      DispatchDoes(config, w);
    }
  }

  lemma Paused(config: Config, w: World)
    requires Tallied(config, w)
    ensures w.manager.paused <==> w.pausing
  {
  }

  lemma KeepChanges(groups: seq<int>, id: int)
    ensures groups + [id] != groups
  {
    assert |groups + [id]| == |groups| + 1;
  }

  lemma RunningBounds(config: Config, w: World)
    requires Running(config, w)
    ensures config.Valid() && w.manager.committed + |w.groups| <= Stop(w.manager)
    ensures |w.groups| <= config.groupsPerStep
  {
    hide Monotone, IssuedInOrder, Contiguous, DeliveredPrefix, Saved;
  }

  // ----- which commits, snapshots and recovery states are accepted

  predicate HoldsRange(given: seq<int>, low: nat, count: nat) {
    forall id :: low <= id < low + count ==> id in given
  }

  function Ids(low: nat, count: nat): (ids: seq<int>)
    ensures |ids| == count && forall k :: 0 <= k < count ==> ids[k] == low + k
  {
    seq(count, k => low + k)
  }

  lemma {:induction false} ElementsAtMost(s: seq<int>)
    ensures |Elements(s)| <= |s|
  {
    if s != [] {
      ElementsAtMost(s[1..]);
      assert Elements(s) == {s[0]} + Elements(s[1..]);
    }
  }

  lemma IdsRange(low: nat, count: nat)
    ensures Distinct(Ids(low, count)) && Ascending(Ids(low, count))
    ensures forall id :: id in Ids(low, count) <==> low <= id < low + count
  {
    var ids := Ids(low, count);
    forall id | low <= id < low + count ensures id in ids {
      assert ids[id - low] == id;
    }
  }

  /** As many ids as there are in a range, among them all of the range, are the range in some order. */
  lemma Permuted(given: seq<int>, low: nat)
    requires HoldsRange(given, low, |given|)
    ensures SortedUnique(given) == Ids(low, |given|)
  {
    hide SortedUnique, Ids, Distinct, Ascending;
    var ids := Ids(low, |given|);
    IdsRange(low, |given|);
    DistinctCounts(ids);
    ElementsAtMost(given);
    assert forall id :: id in given <==> id in Elements(given);
    assert forall id :: id in ids <==> id in Elements(ids);
    assert Elements(ids) <= Elements(given);
    SubsetSize(Elements(ids), Elements(given));
    AscendingEqual(SortedUnique(given), ids);
  }

  /** The manager accepts a commit exactly of the oldest ids it has, all of them delivered, in whatever order they are
      given as consumed or dropped, each once. */
  lemma CommitAcceptsIff(config: Config, events: seq<Event>, consumed: seq<int>, rejected: seq<int>)
    requires config.Valid() && Run(config, events).failure == None
    ensures var (w, given) := (Run(config, events), consumed + rejected);
            Commit(w.manager, consumed, rejected).Some? <==>
              |given| <= |w.groups| && HoldsRange(given, w.manager.committed, |given|)
  {
    hide Run, Running, RetainedIds, IsDelivered, DeliveredPrefix, Contiguous, FromCursor, SortedUnique, Ids, Without, HoldsRange;
    var w, given := Run(config, events), consumed + rejected;
    RunIsSafe(config, events);
    FromHolding(config, w);
    var ids := SortedUnique(given);
    OldestAreFirst(w.manager, |w.groups|, ids);
    if Accepts(w.manager, consumed, rejected) {
      InGiven(w.manager, given);
    }
    if |given| <= |w.groups| && HoldsRange(given, w.manager.committed, |given|) {
      Permuted(given, w.manager.committed);
      IdsFromCursor(w.manager, |given|);
      FirstAreOldest(w.manager, |w.groups|, ids);
    }
  }

  lemma InGiven(m: Manager, given: seq<int>)
    requires FromCursor(m, SortedUnique(given))
    ensures HoldsRange(given, m.committed, |SortedUnique(given)|)
  {
    hide SortedUnique;
    var ids := SortedUnique(given);
    forall id | m.committed <= id < m.committed + |ids| ensures id in given {
      assert ids[id - m.committed] == id && ids[id - m.committed] in ids;
    }
  }

  lemma IdsFromCursor(m: Manager, count: nat)
    ensures FromCursor(m, Ids(m.committed, count))
  {
  }

  /** Recovery state is accepted exactly if its packets are those of an open range that the mailbox can hold. */
  lemma RestoreAcceptsIff(config: Config, snapshot: Snapshot, policy: nat, epoch: nat, issued: seq<Issue>)
    ensures Restore(config, snapshot, policy, epoch, issued).Some? <==>
              && snapshot.committed <= snapshot.nextGroup <= snapshot.committed + config.queueCapacity + config.groupsPerStep
              && forall id: nat :: id in snapshot.retained <==> snapshot.committed <= id < snapshot.nextGroup
  {
    hide Undelivered;
    if snapshot.committed <= snapshot.nextGroup
       && forall id: nat :: id in snapshot.retained <==> snapshot.committed <= id < snapshot.nextGroup {
      RetainedSize(snapshot.retained, snapshot.committed, snapshot.nextGroup);
    }
  }

  /** A snapshot can be taken exactly when it can be restored: while no group is being sampled. */
  lemma SnapshotsRestore(config: Config, events: seq<Event>)
    requires config.Valid() && Run(config, events).failure == None
    ensures var m := Run(config, events).manager;
            var snapshot := Snapshot(m.nextGroup, m.committed, m.retained, m.dropped);
            && (TakeSnapshot(m).Some? <==> Restorable(config, snapshot))
            && (TakeSnapshot(m).Some? ==> TakeSnapshot(m).value == snapshot)
  {
    hide Run;
    RunIsSafe(config, events);
    var m := Run(config, events).manager;
    SnapshotRestores(config, Run(config, events));
  }

  lemma SnapshotRestores(config: Config, w: World)
    requires Running(config, w)
    ensures var m := w.manager;
            Restorable(config, Snapshot(m.nextGroup, m.committed, m.retained, m.dropped)) <==> m.active.None?
  {
    hide Monotone, IssuedInOrder, DeliveredPrefix, Saved;
    RetainedWithinBound(config, w.manager);
    if w.manager.active.Some? {
      assert w.manager.active.value.id !in w.manager.retained;
    }
  }

  /** In whatever state, a step or a drop whose commit is refused ends the run, as does a restart whose recovery state
      is refused, and a packet of a later version than the learner's. */
  lemma RefusalsEndTheRun(config: Config, w: World)
    requires w.failure == None
    ensures w.pausing && w.manager.active.None? && Commit(w.manager, w.groups, []).None? ==>
              Next(config, w, Trained) == w.(failure := Some(CommitRejected))
    ensures w.checkpoint.Some? && !Restorable(config, w.checkpoint.value.snapshot) ==>
              Next(config, w, Restarted) == w.(failure := Some(RestoreRejected))
    ensures var upcoming := Upcoming(config, w);
            upcoming.Some? && !upcoming.value.excluded && upcoming.value.version > w.step ==>
              Next(config, w, Received).failure == Some(NewerThanLearner)
  {
    hide Get, Commit, Restorable;
  }
}
