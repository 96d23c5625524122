/** What every interleaving of the manager and its learner keeps, and which commits are accepted. */
module MailboxTheorems {
  import opened RowIds
  import opened Wrappers
  import opened MailboxSpec

  // ----- invariants

  /** Retained ids and the id in flight are exactly those from the committed one to the next. */
  ghost predicate Contiguous(retained: map<nat, Slot>, active: Option<Flight>, committed: nat, next: nat) {
    && committed <= next
    && (active.Some? ==> committed <= active.value.id && active.value.id + 1 == next)
    && forall id: nat :: id in retained <==> committed <= id < next && !(active.Some? && active.value.id == id)
  }

  /** The delivered ids are the first `count` retained ones. */
  ghost predicate DeliveredPrefix(retained: map<nat, Slot>, committed: nat, count: nat) {
    forall id: nat :: id in retained ==> (retained[id].delivered <==> id < committed + count)
  }

  /** Later groups were never sampled under an older policy. */
  ghost predicate Monotone(retained: map<nat, Slot>, active: Option<Flight>, policy: nat) {
    && (forall i: nat, j: nat :: i in retained && j in retained && i <= j ==> retained[i].version <= retained[j].version)
    && (forall i: nat :: i in retained ==> retained[i].version <= policy)
    && (active.Some? ==>
          active.value.version <= policy && forall i: nat :: i in retained ==> retained[i].version <= active.value.version)
  }

  /** Ids are given out in strictly increasing order within an epoch, and epochs increase. */
  ghost predicate IssuedInOrder(issued: seq<Issue>, epoch: nat, next: nat) {
    && (forall j, k :: 0 <= j < k < |issued| ==>
          issued[j].epoch < issued[k].epoch || (issued[j].epoch == issued[k].epoch && issued[j].id < issued[k].id))
    && (forall k :: 0 <= k < |issued| ==> issued[k].epoch <= epoch && (issued[k].epoch == epoch ==> issued[k].id < next))
  }

  ghost predicate ManagerOk(config: Config, m: Manager) {
    && Contiguous(m.retained, m.active, m.committed, m.nextGroup)
    && m.nextGroup - m.committed <= config.Bound()
    && Monotone(m.retained, m.active, m.policy)
    && IssuedInOrder(m.issued, m.epoch, m.nextGroup)
  }

  /** The end of the retained range. */
  function Stop(m: Manager): nat {
    if m.active.Some? && 0 < m.nextGroup then m.nextGroup - 1 else m.nextGroup
  }

  /** The learner holds exactly the delivered packets, in order, none excluded and none too old. */
  ghost predicate Holding(config: Config, m: Manager, step: nat, groups: seq<int>) {
    && m.committed + |groups| <= Stop(m) && |groups| <= config.groupsPerStep
    && (forall k :: 0 <= k < |groups| ==> groups[k] == m.committed + k)
    && DeliveredPrefix(m.retained, m.committed, |groups|)
    && (forall id: nat :: id in m.retained && id < m.committed + |groups| ==>
          !m.retained[id].excluded && step <= m.retained[id].version + config.maxLag)
  }

  ghost predicate Saved(config: Config, checkpoint: Option<Checkpoint>) {
    checkpoint.Some? ==>
      var c := checkpoint.value;
      && Contiguous(c.snapshot.retained, None, c.snapshot.committed, c.snapshot.nextGroup)
      && c.snapshot.nextGroup - c.snapshot.committed <= config.Bound()
      && Monotone(c.snapshot.retained, None, c.step)
  }

  ghost predicate Running(config: Config, w: World) {
    && config.Valid() && ManagerOk(config, w.manager) && Holding(config, w.manager, w.step, w.groups)
    && w.manager.policy == w.step && Saved(config, w.checkpoint)
    && (w.pausing ==> w.manager.paused && |w.groups| == config.groupsPerStep)
  }

  // ----- the mailbox's range

  lemma {:induction false} RetainedSize(retained: map<nat, Slot>, low: nat, high: nat)
    requires low <= high && forall id: nat :: id in retained <==> low <= id < high
    ensures |retained| == high - low
    decreases high - low
  {
    if low == high {
      assert retained == map[];
    } else {
      var rest := retained - {high - 1};
      RetainedSize(rest, low, high - 1);
      assert retained.Keys == rest.Keys + {high - 1};
      assert |retained.Keys| == |rest.Keys| + 1;
    }
  }

  /** The mailbox never holds more than its queue and one step's groups. */
  lemma RetainedWithinBound(config: Config, m: Manager)
    requires ManagerOk(config, m)
    ensures |m.retained| == m.nextGroup - m.committed - (if m.active.Some? then 1 else 0)
    ensures |m.retained| <= config.Bound()
  {
    RetainedSize(m.retained, m.committed, if m.active.Some? then m.nextGroup - 1 else m.nextGroup);
    hide Monotone, IssuedInOrder;
  }

  /** On a contiguous range, the sorted ids are the range. */
  lemma {:induction false} RetainedFromRange(retained: map<nat, Slot>, committed: nat, stop: nat, low: nat, high: nat)
    requires forall id: nat :: id in retained <==> committed <= id < stop
    requires low <= committed <= stop <= high || committed <= low <= stop <= high || committed <= stop <= low <= high
    ensures var ids := RetainedFrom(retained, low, high);
            var first := if low < committed then committed else low;
            && |ids| == (if first < stop then stop - first else 0)
            && forall k :: 0 <= k < |ids| ==> ids[k] == first + k
    decreases high - low
  {
    if low < high {
      RetainedFromRange(retained, committed, stop, low + 1, high);
    }
  }

  lemma IdsAreRange(m: Manager)
    requires Contiguous(m.retained, m.active, m.committed, m.nextGroup)
    ensures |RetainedIds(m)| == Stop(m) - m.committed
    ensures forall k :: 0 <= k < |RetainedIds(m)| ==> RetainedIds(m)[k] == m.committed + k
  {
    RetainedFromRange(m.retained, m.committed, Stop(m), 0, m.nextGroup);
  }

  // ----- delivery

  /** The next packet delivered is the first after the delivered prefix, if it has been sampled. */
  lemma {:induction false} OldestIsNext(retained: map<nat, Slot>, committed: nat, count: nat, stop: nat, low: nat, high: nat)
    requires forall id: nat :: id in retained <==> committed <= id < stop
    requires DeliveredPrefix(retained, committed, count) && low <= high && stop <= high && low <= committed + count
    ensures OldestUndelivered(retained, low, high) == if committed + count < stop then Some(committed + count) else None
    decreases high - low
  {
    if low < high {
      if low < committed + count {
        OldestIsNext(retained, committed, count, stop, low + 1, high);
      } else if stop <= low {
        NothingAbove(retained, stop, low, high);
      }
    }
  }

  lemma {:induction false} NothingAbove(retained: map<nat, Slot>, stop: nat, low: nat, high: nat)
    requires stop <= low <= high && forall id :: id in retained ==> id < stop
    ensures OldestUndelivered(retained, low, high) == None
    decreases high - low
  {
    if low < high {
      NothingAbove(retained, stop, low + 1, high);
    }
  }

  lemma GetIsNext(config: Config, m: Manager, step: nat, groups: seq<int>)
    requires ManagerOk(config, m) && Holding(config, m, step, groups)
    ensures var next := m.committed + |groups|;
            if next < Stop(m) then
              && next in m.retained
              && Get(m) == (m.(retained := m.retained[next := m.retained[next].(delivered := true)]),
                            Some(Packet(next, m.retained[next].version, m.retained[next].excluded)))
            else Get(m) == (m, None)
  {
    OldestIsNext(m.retained, m.committed, |groups|, Stop(m), 0, m.nextGroup);
    hide Monotone, IssuedInOrder;
  }

  // ----- commits

  ghost predicate OldestDelivered(m: Manager, ids: seq<int>) {
    && |ids| <= |RetainedIds(m)| && ids == RetainedIds(m)[..|ids|]
    && forall k :: 0 <= k < |ids| ==> IsDelivered(m.retained, ids[k])
  }

  lemma AcceptsGiven(m: Manager, ids: seq<int>)
    requires Ascending(ids)
    ensures Accepts(m, ids, []) <==> OldestDelivered(m, ids)
    ensures Accepts(m, [], ids) <==> OldestDelivered(m, ids)
  {
    hide RetainedIds, IsDelivered, Ascending;
    SortedUniqueOfAscending(ids);
    assert ids + [] == ids && [] + ids == ids;
  }

  ghost predicate FromCursor(m: Manager, ids: seq<int>) {
    forall k :: 0 <= k < |ids| ==> ids[k] == m.committed + k
  }

  lemma OldestAreFirst(m: Manager, count: nat, ids: seq<int>)
    requires Contiguous(m.retained, m.active, m.committed, m.nextGroup)
    requires DeliveredPrefix(m.retained, m.committed, count) && m.committed + count <= Stop(m)
    ensures OldestDelivered(m, ids) ==> |ids| <= count && FromCursor(m, ids)
  {
    hide RetainedIds;
    IdsAreRange(m);
    if OldestDelivered(m, ids) && |ids| > 0 {
      var last := |ids| - 1;
      assert RetainedIds(m)[..|ids|][last] == m.committed + last;
      assert IsDelivered(m.retained, ids[last]);
    }
  }

  lemma FirstAreOldest(m: Manager, count: nat, ids: seq<int>)
    requires Contiguous(m.retained, m.active, m.committed, m.nextGroup)
    requires DeliveredPrefix(m.retained, m.committed, count) && m.committed + count <= Stop(m)
    requires |ids| <= count && FromCursor(m, ids)
    ensures OldestDelivered(m, ids)
  {
    hide RetainedIds;
    IdsAreRange(m);
    forall k: nat | k < |ids| ensures IsDelivered(m.retained, ids[k]) {
      assert ids[k] == m.committed + k;
    }
    assert ids == RetainedIds(m)[..|ids|];
  }

  /** Ids in ascending order are committed exactly if they are the oldest retained ones and delivered. */
  lemma AcceptsAscending(m: Manager, count: nat, ids: seq<int>)
    requires Contiguous(m.retained, m.active, m.committed, m.nextGroup)
    requires DeliveredPrefix(m.retained, m.committed, count) && m.committed + count <= Stop(m) && Ascending(ids)
    ensures Accepts(m, ids, []) <==> |ids| <= count && FromCursor(m, ids)
    ensures Accepts(m, [], ids) <==> |ids| <= count && FromCursor(m, ids)
  {
    hide *;
    AcceptsGiven(m, ids);
    OldestAreFirst(m, count, ids);
    if |ids| <= count && FromCursor(m, ids) {
      FirstAreOldest(m, count, ids);
    }
  }

  lemma CursorAscends(m: Manager, ids: seq<int>)
    requires FromCursor(m, ids)
    ensures Ascending(ids)
  {
  }

  /** What is left once the first ids from the cursor on are gone. */
  lemma LeftFromCursor(m: Manager, ids: seq<int>)
    requires FromCursor(m, ids) && Contiguous(m.retained, m.active, m.committed, m.nextGroup)
    ensures forall id: nat :: id in Without(m.retained, ids) <==> id in m.retained && m.committed + |ids| <= id
  {
    forall id: nat ensures id in Without(m.retained, ids) <==> id in m.retained && m.committed + |ids| <= id {
      if m.committed <= id < m.committed + |ids| {
        assert ids[id - m.committed] == id;
      }
    }
  }

  lemma CommitIs(m: Manager, ids: seq<int>, rejected: bool)
    requires FromCursor(m, ids) && (if rejected then Accepts(m, [], ids) else Accepts(m, ids, []))
    ensures var after := if rejected then Commit(m, [], ids) else Commit(m, ids, []);
            after == Some(m.(retained := Without(m.retained, ids), committed := m.committed + |ids|,
                             dropped := m.dropped + if rejected then |ids| else 0))
  {
    hide Accepts, Without, SortedUnique, Ascending;
    CursorAscends(m, ids);
    SortedUniqueOfAscending(ids);
    assert ids + [] == ids && [] + ids == ids;
    if ids != [] {
      assert ids[|ids| - 1] == m.committed + (|ids| - 1);
    }
  }

  /** Committing the oldest n delivered groups moves the cursor by n and touches no other group. */
  lemma CommitMoves(config: Config, m: Manager, count: nat, ids: seq<int>, rejected: bool)
    requires ManagerOk(config, m) && DeliveredPrefix(m.retained, m.committed, count) && m.committed + count <= Stop(m)
    requires |ids| <= count && FromCursor(m, ids)
    ensures var after := if rejected then Commit(m, [], ids) else Commit(m, ids, []);
            && after.Some? && ManagerOk(config, after.value)
            && after.value == m.(retained := after.value.retained, committed := m.committed + |ids|,
                                 dropped := after.value.dropped)
            && DeliveredPrefix(after.value.retained, after.value.committed, count - |ids|)
            && forall id :: id in after.value.retained ==> id in m.retained && after.value.retained[id] == m.retained[id]
  {
    hide Accepts, Commit, FromCursor, IssuedInOrder;
    CursorAscends(m, ids);
    AcceptsAscending(m, count, ids);
    CommitIs(m, ids, rejected);
    LeftFromCursor(m, ids);
  }

  // ----- every step

  lemma DispatchRuns(config: Config, m: Manager, step: nat, groups: seq<int>)
    requires ManagerOk(config, m) && Holding(config, m, step, groups)
    ensures ManagerOk(config, Dispatch(config, m)) && Holding(config, Dispatch(config, m), step, groups)
    ensures Dispatch(config, m).policy == m.policy && Dispatch(config, m).paused == m.paused
  {
    hide Queued, Monotone;
    RetainedWithinBound(config, m);
    DispatchKeepsVersions(config, m);
  }

  lemma DispatchKeepsVersions(config: Config, m: Manager)
    requires ManagerOk(config, m)
    ensures Monotone(Dispatch(config, m).retained, Dispatch(config, m).active, Dispatch(config, m).policy)
  {
    hide Queued, IssuedInOrder;
  }

  lemma SampledOk(config: Config, m: Manager, excluded: bool)
    requires ManagerOk(config, m)
    ensures ManagerOk(config, Sampled(m, excluded))
  {
    hide IssuedInOrder;
  }

  lemma SampledRuns(config: Config, m: Manager, step: nat, groups: seq<int>, excluded: bool)
    requires ManagerOk(config, m) && Holding(config, m, step, groups)
    ensures ManagerOk(config, Sampled(m, excluded)) && Holding(config, Sampled(m, excluded), step, groups)
    ensures Sampled(m, excluded).policy == m.policy && Sampled(m, excluded).paused == m.paused
  {
    hide IssuedInOrder, Monotone;
    SampledOk(config, m, excluded);
  }

  /** The packet the learner takes next, if it takes one. */
  function Upcoming(config: Config, w: World): Option<Packet> {
    if |w.groups| >= config.groupsPerStep || w.pausing then None else Get(w.manager).1
  }

  /** A drop is refused exactly when an excluded packet arrives after a kept one. */
  ghost predicate Refused(config: Config, w: World) {
    Upcoming(config, w).Some? && Upcoming(config, w).value.excluded && w.groups != []
  }

  ghost predicate Delivered(m: Manager, next: nat, taken: Manager) {
    next in m.retained && taken == m.(retained := m.retained[next := m.retained[next].(delivered := true)])
  }

  lemma DeliveredOk(config: Config, m: Manager, count: nat, taken: Manager)
    requires ManagerOk(config, m) && DeliveredPrefix(m.retained, m.committed, count)
    requires m.committed + count < Stop(m) && Delivered(m, m.committed + count, taken)
    ensures ManagerOk(config, taken) && DeliveredPrefix(taken.retained, taken.committed, count + 1)
    ensures Stop(taken) == Stop(m)
  {
    hide IssuedInOrder;
  }

  /** Dropping the packet just delivered works exactly if nothing was kept before it. */
  lemma DropRuns(config: Config, w: World, taken: Manager, next: nat)
    requires Running(config, w) && next == w.manager.committed + |w.groups| < Stop(w.manager)
    requires Delivered(w.manager, next, taken)
    ensures var t := DropPacket(w.(manager := taken), next);
            if w.groups == [] then t.failure == w.failure && Running(config, t)
            else t == w.(manager := taken, failure := Some(CommitRejected))
  {
    hide IssuedInOrder, Accepts, Commit, Monotone;
    DeliveredOk(config, w.manager, |w.groups|, taken);
    AcceptsAscending(taken, |w.groups| + 1, [next]);
    if w.groups == [] {
      assert FromCursor(taken, [next]);
      CommitMoves(config, taken, 1, [next], true);
    } else {
      assert [next][0] == next;
      NoCommit(taken, [next]);
    }
  }

  lemma NoCommit(m: Manager, ids: seq<int>)
    requires !Accepts(m, [], ids)
    ensures Commit(m, [], ids) == None
  {
  }

  lemma KeepRuns(config: Config, w: World, taken: Manager, next: nat)
    requires Running(config, w) && next == w.manager.committed + |w.groups| < Stop(w.manager)
    requires Delivered(w.manager, next, taken) && |w.groups| < config.groupsPerStep && !w.pausing
    requires !taken.retained[next].excluded && w.step <= taken.retained[next].version + config.maxLag
    ensures Running(config, w.(manager := taken, groups := w.groups + [next]))
  {
    hide IssuedInOrder, Contiguous, Monotone;
    DeliveredOk(config, w.manager, |w.groups|, taken);
  }

  /** After a kept packet none is too old: versions never decrease along ids. */
  lemma KeptThenFresh(config: Config, w: World, next: nat)
    requires Running(config, w) && next == w.manager.committed + |w.groups| < Stop(w.manager)
    requires next in w.manager.retained && w.groups != []
    ensures w.step <= w.manager.retained[next].version + config.maxLag
  {
    hide IssuedInOrder;
    assert w.manager.committed in w.manager.retained;
  }

  lemma VersionsAreKnown(config: Config, w: World, next: nat)
    requires Running(config, w) && next in w.manager.retained
    ensures w.manager.retained[next].version <= w.step
  {
    hide IssuedInOrder, Contiguous;
  }

  /** Taking a packet fails exactly in the refused case, and never because a packet is newer than the learner. */
  lemma ReceiveRuns(config: Config, w: World)
    requires Running(config, w) && w.failure == None
    ensures var t := Receive(config, w);
            if Refused(config, w) then t.failure == Some(CommitRejected) else t.failure == None && Running(config, t)
  {
    hide Running, DropPacket, Get, Delivered;
    RunningManager(config, w);
    GetIsNext(config, w.manager, w.step, w.groups);
    var next := w.manager.committed + |w.groups|;
    if |w.groups| < config.groupsPerStep && !w.pausing && next < Stop(w.manager) {
      var taken := Get(w.manager).0;
      IsDeliveredNow(w.manager, next, taken);
      VersionsAreKnown(config, w, next);
      DropRuns(config, w, taken, next);
      var slot := w.manager.retained[next];
      if w.groups != [] {
        KeptThenFresh(config, w, next);
      }
      if !slot.excluded && w.step <= slot.version + config.maxLag {
        KeepRuns(config, w, taken, next);
      }
    }
  }

  lemma IsDeliveredNow(m: Manager, next: nat, taken: Manager)
    requires next in m.retained && taken == m.(retained := m.retained[next := m.retained[next].(delivered := true)])
    ensures Delivered(m, next, taken) && taken.retained[next] == m.retained[next].(delivered := true)
  {
  }

  lemma RunningManager(config: Config, w: World)
    requires Running(config, w)
    ensures config.Valid() && ManagerOk(config, w.manager) && Holding(config, w.manager, w.step, w.groups)
    ensures w.manager.policy == w.step && Saved(config, w.checkpoint)
  {
    hide ManagerOk, Holding, Saved;
  }

  /** The groups of a finished step are always accepted, and the drained manager can always be saved. */
  lemma TrainRuns(config: Config, w: World)
    requires Running(config, w) && w.failure == None
    ensures Train(w).failure == None && Running(config, Train(w))
  {
    if w.pausing && w.manager.active.None? {
      hide Accepts, Commit, IssuedInOrder, Contiguous;
      var m := w.manager;
      assert FromCursor(m, w.groups);
      CommitMoves(config, m, |w.groups|, w.groups, false);
    }
  }

  lemma PauseRuns(config: Config, w: World)
    requires Running(config, w)
    ensures Running(config, Pause(config, w)) && Pause(config, w).failure == w.failure
  {
    hide Contiguous, IssuedInOrder, Monotone, DeliveredPrefix, Saved;
  }

  /** A checkpoint is always accepted again, and its manager issues ids under a new epoch. */
  lemma RestartRuns(config: Config, w: World)
    requires Running(config, w) && w.failure == None
    ensures Restart(config, w).failure == None && Running(config, Restart(config, w))
  {
    hide Running, Restart;
    if w.checkpoint == None {
      RestartsAfresh(config, w);
    } else {
      RestartsFromSnapshot(config, w);
    }
  }

  lemma RestartsAfresh(config: Config, w: World)
    requires Running(config, w) && w.failure == None && w.checkpoint == None
    ensures Restart(config, w).failure == None && Running(config, Restart(config, w))
  {
    hide IssuedInOrder, Saved;
    IssuedLater(w.manager.issued, w.manager.epoch, w.manager.nextGroup, 0);
    SavedNothing(config);
  }

  lemma SavedNothing(config: Config)
    ensures Saved(config, None)
  {
  }

  lemma RestartsFromSnapshot(config: Config, w: World)
    requires Running(config, w) && w.failure == None && w.checkpoint.Some?
    ensures Restart(config, w).failure == None && Running(config, Restart(config, w))
  {
    hide IssuedInOrder, Restorable, Undelivered;
    var checkpoint := w.checkpoint.value;
    IssuedLater(w.manager.issued, w.manager.epoch, w.manager.nextGroup, checkpoint.snapshot.nextGroup);
    SavedIsRestorable(config, checkpoint);
    Renewed(config, checkpoint);
  }

  lemma SavedIsRestorable(config: Config, checkpoint: Checkpoint)
    requires Saved(config, Some(checkpoint))
    ensures Restorable(config, checkpoint.snapshot)
  {
    hide Monotone;
    RetainedSize(checkpoint.snapshot.retained, checkpoint.snapshot.committed, checkpoint.snapshot.nextGroup);
  }

  /** The restored packets are those saved, none of them delivered. */
  lemma Renewed(config: Config, checkpoint: Checkpoint)
    requires Saved(config, Some(checkpoint))
    ensures var snapshot := checkpoint.snapshot;
            && Contiguous(Undelivered(snapshot.retained), None, snapshot.committed, snapshot.nextGroup)
            && Monotone(Undelivered(snapshot.retained), None, checkpoint.step)
  {
  }

  lemma IssuedLater(issued: seq<Issue>, epoch: nat, next: nat, later: nat)
    requires IssuedInOrder(issued, epoch, next)
    ensures IssuedInOrder(issued, epoch + 1, later)
  {
  }

  // ----- whole runs

  lemma ManagerStepRuns(config: Config, w: World, next: Manager)
    requires Running(config, w) && ManagerOk(config, next) && Holding(config, next, w.step, w.groups)
    requires next.policy == w.manager.policy && next.paused == w.manager.paused
    ensures Running(config, w.(manager := next))
  {
    hide ManagerOk, Holding, Saved;
  }

  /** Whatever comes next, the run fails only by refusing to drop an excluded packet after a kept one. */
  lemma NextRuns(config: Config, w: World, event: Event)
    requires Running(config, w) && w.failure == None
    ensures var t := Next(config, w, event);
            if event == Received && Refused(config, w) then t.failure == Some(CommitRejected)
            else t.failure == None && Running(config, t)
  {
    hide Running, Dispatch, Sampled, Receive, Pause, Train, Restart, ManagerOk, Holding, Refused;
    RunningManager(config, w);
    match event
    case Dispatched =>
      DispatchRuns(config, w.manager, w.step, w.groups);
      ManagerStepRuns(config, w, Dispatch(config, w.manager));
    case GroupSampled(excluded) =>
      SampledRuns(config, w.manager, w.step, w.groups, excluded);
      ManagerStepRuns(config, w, Sampled(w.manager, excluded));
    case Received => ReceiveRuns(config, w);
    case PauseAsked => PauseRuns(config, w);
    case Trained => TrainRuns(config, w);
    case Restarted => RestartRuns(config, w);
  }

  lemma StartRuns(config: Config)
    requires config.Valid()
    ensures Running(config, Start())
  {
  }

  /** Every reachable state keeps the mailbox invariants, until the one refusal there is. */
  lemma {:induction false} RunIsSafe(config: Config, events: seq<Event>)
    requires config.Valid()
    ensures var w := Run(config, events);
            && (w.failure == None ==> Running(config, w))
            && (w.failure == None || w.failure == Some(CommitRejected))
  {
    hide Running, Next, Refused;
    if events == [] {
      StartRuns(config);
    } else {
      var w := Run(config, events[..|events| - 1]);
      RunIsSafe(config, events[..|events| - 1]);
      if w.failure == None {
        NextRuns(config, w, events[|events| - 1]);
      } else {
        FailureStays(config, w, events[|events| - 1]);
      }
    }
  }

  /** What that means: retained ids and the id in flight are exactly those from committed to next; the learner holds
      exactly the delivered ones, the oldest, in order; the mailbox is bounded; and no id is issued twice in an epoch. */
  lemma MailboxIsExact(config: Config, events: seq<Event>)
    requires config.Valid() && Run(config, events).failure == None
    ensures var w := Run(config, events);
            var m := w.manager;
            && (forall id: nat :: (id in m.retained || (m.active.Some? && m.active.value.id == id)) <==> m.committed <= id < m.nextGroup)
            && (forall id: nat :: id in m.retained ==> (m.retained[id].delivered <==> id < m.committed + |w.groups|))
            && (forall k :: 0 <= k < |w.groups| ==> w.groups[k] == m.committed + k)
            && |m.retained| <= config.queueCapacity + config.groupsPerStep
            && (forall j, k :: 0 <= j < k < |m.issued| ==> m.issued[j] != m.issued[k])
  {
    hide Run;
    RunIsSafe(config, events);
    RetainedWithinBound(config, Run(config, events).manager);
  }

  lemma FailureStays(config: Config, w: World, event: Event)
    requires w.failure != None
    ensures Next(config, w, event) == w
  {
  }

  /** When sampling yields no exclusions, every commit of every interleaving is accepted. */
  lemma {:induction false} CommitsAccepted(config: Config, events: seq<Event>)
    requires config.Valid() && forall k :: 0 <= k < |events| ==> events[k] != GroupSampled(true)
    ensures Run(config, events).failure == None
    ensures NothingExcluded(Run(config, events))
  {
    hide Running, Next, Refused, NothingExcluded;
    if events == [] {
      StartExcludesNothing();
    } else {
      var front, event := events[..|events| - 1], events[|events| - 1];
      var w := Run(config, front);
      CommitsAccepted(config, front);
      RunIsSafe(config, front);
      NextRuns(config, w, event);
      NoneRefused(config, w);
      ExcludesNothing(config, w, event);
    }
  }

  ghost predicate NoneExcluded(retained: map<nat, Slot>) {
    forall id :: id in retained ==> !retained[id].excluded
  }

  ghost predicate NothingExcluded(w: World) {
    NoneExcluded(w.manager.retained) && (w.checkpoint.Some? ==> NoneExcluded(w.checkpoint.value.snapshot.retained))
  }

  lemma StartExcludesNothing()
    ensures NothingExcluded(Start())
  {
  }

  lemma NoneRefused(config: Config, w: World)
    requires NothingExcluded(w)
    ensures !Refused(config, w)
  {
  }

  lemma CommitExcludesNothing(m: Manager, consumed: seq<int>, rejected: seq<int>)
    requires NoneExcluded(m.retained)
    ensures Commit(m, consumed, rejected).Some? ==> NoneExcluded(Commit(m, consumed, rejected).value.retained)
  {
    hide Accepts, SortedUnique;
  }

  lemma ReceiveExcludesNothing(config: Config, w: World)
    requires NothingExcluded(w)
    ensures NothingExcluded(Receive(config, w))
  {
    hide Commit, OldestUndelivered;
    var (manager, packet) := Get(w.manager);
    assert NoneExcluded(manager.retained);
    if packet.Some? {
      CommitExcludesNothing(manager, [], [packet.value.id]);
    }
  }

  lemma ExcludesNothing(config: Config, w: World, event: Event)
    requires NothingExcluded(w) && event != GroupSampled(true)
    ensures NothingExcluded(Next(config, w, event))
  {
    hide Commit, Receive, Queued;
    ReceiveExcludesNothing(config, w);
    CommitExcludesNothing(w.manager, w.groups, []);
  }

  /** The state in which the refusal happens is exactly: an excluded packet is next, and a group has been kept
      for the current step. */
  lemma RefusedIff(config: Config, events: seq<Event>)
    requires config.Valid() && Run(config, events).failure == None
    ensures var w := Run(config, events);
            Next(config, w, Received).failure == Some(CommitRejected) <==>
              Upcoming(config, w).Some? && Upcoming(config, w).value.excluded && w.groups != []
  {
    hide Running, Next;
    RunIsSafe(config, events);
    NextRuns(config, Run(config, events), Received);
  }

  lemma RunStep(config: Config, events: seq<Event>, event: Event)
    ensures Run(config, events + [event]) == Next(config, Run(config, events), event)
  {
    assert (events + [event])[..|events|] == events;
  }

  const KEPT := World(
    Manager(2, 0, map[0 := Slot(0, false, true)], Some(Flight(1, 0)), 0, false, 0, 0, [Issue(0, 0), Issue(0, 1)]),
    0, [0], false, None, None)

  const SAMPLED := World(
    Manager(1, 0, map[0 := Slot(0, false, false)], None, 0, false, 0, 0, [Issue(0, 0)]), 0, [], false, None, None)

  lemma SampledIsReached()
    ensures Run(Config(2, 2, 0), [Dispatched, GroupSampled(false)]) == SAMPLED
  {
    hide Commit;
    RunStep(Config(2, 2, 0), [], Dispatched);
    RunStep(Config(2, 2, 0), [Dispatched], GroupSampled(false));
    assert [] + [Dispatched] == [Dispatched];
    assert [Dispatched] + [GroupSampled(false)] == [Dispatched, GroupSampled(false)];
  }

  lemma SampledIsKept()
    ensures Next(Config(2, 2, 0), Next(Config(2, 2, 0), SAMPLED, Received), Dispatched) == KEPT
  {
    hide Commit, Run;
    var taken := Next(Config(2, 2, 0), SAMPLED, Received);
    assert Get(SAMPLED.manager).1 == Some(Packet(0, 0, false));
    assert taken.manager.retained == map[0 := Slot(0, false, true)];
    assert Queued(taken.manager.retained, 1) == 0;
    assert |taken.manager.retained| == 1;
  }

  /** Two groups per step: the first is sampled and kept, the second is being sampled. */
  lemma KeptIsReached()
    ensures Run(Config(2, 2, 0), [Dispatched, GroupSampled(false), Received, Dispatched]) == KEPT
  {
    hide Next, Run;
    var before := [Dispatched, GroupSampled(false)];
    SampledIsReached();
    SampledIsKept();
    RunStep(Config(2, 2, 0), before, Received);
    RunStep(Config(2, 2, 0), before + [Received], Dispatched);
    assert before + [Received] + [Dispatched] == [Dispatched, GroupSampled(false), Received, Dispatched];
  }

  lemma KeptThenExcluded()
    ensures Refused(Config(2, 2, 0), Next(Config(2, 2, 0), KEPT, GroupSampled(true)))
  {
  }

  /** It does happen: a kept group, then an excluded one before the step has its groups. */
  lemma ExclusionAfterKeptGroupIsRefused()
    ensures Run(Config(2, 2, 0), [Dispatched, GroupSampled(false), Received, Dispatched, GroupSampled(true), Received]).failure
            == Some(CommitRejected)
  {
    hide Running, Next, Refused, Run, Config.Valid;
    var config := Config(2, 2, 0);
    var before := [Dispatched, GroupSampled(false), Received, Dispatched];
    assert before + [GroupSampled(true)] + [Received]
           == [Dispatched, GroupSampled(false), Received, Dispatched, GroupSampled(true), Received];
    KeptIsReached();
    KeptThenExcluded();
    RunStep(config, before, GroupSampled(true));
    RunStep(config, before + [GroupSampled(true)], Received);
    ConfigIsValid();
    RunIsSafe(config, before + [GroupSampled(true)]);
    KeptDoesNotFail();
    NextRuns(config, Run(config, before + [GroupSampled(true)]), Received);
  }

  lemma ConfigIsValid()
    ensures Config(2, 2, 0).Valid()
  {
  }

  lemma KeptDoesNotFail()
    ensures Next(Config(2, 2, 0), KEPT, GroupSampled(true)).failure == None
  {
  }
}
