/** The manager's mailbox and the learner's collecting loop on mutable fields. */
module Mailbox {
  import opened RowIds
  import opened Wrappers
  import Spec = MailboxSpec
  import T = MailboxTheorems

  /** The manager's side: `_serve`'s dictionary of retained packets and its cursors. */
  class Manager {
    const config: Spec.Config
    var nextGroup: nat
    var committed: nat
    var retained: map<nat, Spec.Slot>
    var active: Option<Spec.Flight>
    var policy: nat
    var paused: bool
    var dropped: nat
    var epoch: nat
    ghost var issued: seq<Spec.Issue>

    ghost function S(): Spec.Manager
      reads this
    {
      Spec.Manager(nextGroup, committed, retained, active, policy, paused, dropped, epoch, issued)
    }

    constructor (config: Spec.Config)
      ensures this.config == config && S() == Spec.Fresh()
    {
      this.config := config;
      nextGroup, committed, retained, active := 0, 0, map[], None;
      policy, paused, dropped, epoch, issued := 0, false, 0, 0, [];
    }

    method Get() returns (packet: Option<Spec.Packet>)
      modifies this`retained
      ensures (S(), packet) == Spec.Get(old(S()))
    {
      var id := 0;
      while id < nextGroup
        invariant id <= nextGroup && retained == old(retained)
        invariant Spec.OldestUndelivered(retained, 0, nextGroup) == Spec.OldestUndelivered(retained, id, nextGroup)
      {
        if id in retained && !retained[id].delivered {
          var slot := retained[id];
          retained := retained[id := slot.(delivered := true)];
          return Some(Spec.Packet(id, slot.version, slot.excluded));
        }
        id := id + 1;
      }
      return None;
    }

    method RetainedIds() returns (ids: seq<int>)
      ensures ids == Spec.RetainedIds(S())
    {
      ids := [];
      for id := 0 to nextGroup
        invariant ids + Spec.RetainedFrom(retained, id, nextGroup) == Spec.RetainedIds(S())
      {
        if id in retained {
          ids := ids + [id];
        }
      }
    }

    /** Whether these ids, without repetitions, are the oldest retained ones and all delivered. */
    method Accepts(consumed: seq<int>, rejected: seq<int>) returns (ok: bool)
      ensures ok <==> Spec.Accepts(S(), consumed, rejected)
    {
      hide Spec.RetainedIds, SortedUnique;
      var ids := SortedUnique(consumed + rejected);
      var known := RetainedIds();
      if |ids| != |consumed + rejected| || |ids| > |known| || ids != known[..|ids|] {
        return false;
      }
      for k := 0 to |ids|
        invariant forall j :: 0 <= j < k ==> Spec.IsDelivered(retained, ids[j])
      {
        if !Spec.IsDelivered(retained, ids[k]) {
          return false;
        }
      }
      return true;
    }

    /** `commit`: refuse anything but the delivered oldest prefix, then forget it and move the cursor. */
    method Commit(consumed: seq<int>, rejected: seq<int>) returns (ok: bool)
      modifies this`retained, this`committed, this`dropped
      ensures match Spec.Commit(old(S()), consumed, rejected)
              case None => !ok && S() == old(S())
              case Some(after) => ok && S() == after
    {
      hide Spec.Accepts, Spec.Without, SortedUnique;
      ok := Accepts(consumed, rejected);
      if !ok {
        return;
      }
      var ids := SortedUnique(consumed + rejected);
      if ids != [] && 0 <= ids[|ids| - 1] {
        committed := ids[|ids| - 1] + 1;
      }
      retained, dropped := Spec.Without(retained, ids), dropped + |rejected|;
    }

    method CountQueued() returns (queued: nat)
      ensures queued == Spec.Queued(retained, nextGroup)
    {
      queued := 0;
      for id := 0 to nextGroup
        invariant queued == Spec.Queued(retained, id)
      {
        if id in retained && !retained[id].delivered {
          queued := queued + 1;
        }
      }
    }

    /** Start sampling the next group while there is mailbox credit. */
    method Dispatch()
      modifies this`nextGroup, this`active, this`issued
      ensures S() == Spec.Dispatch(config, old(S()))
    {
      var queued := CountQueued();
      if !paused && active.None? && |retained| < config.Bound() && queued < config.queueCapacity {
        issued := issued + [Spec.Issue(epoch, nextGroup)];
        active := Some(Spec.Flight(nextGroup, policy));
        nextGroup := nextGroup + 1;
      }
    }

    method Sampled(excluded: bool)
      modifies this`retained, this`active
      ensures S() == Spec.Sampled(old(S()), excluded)
    {
      if active.Some? {
        retained := retained[active.value.id := Spec.Slot(active.value.version, excluded, false)];
        active := None;
      }
    }

    /** Start over from a snapshot under a new epoch, if its cursors are sound. */
    method Restore(snapshot: Spec.Snapshot, version: nat) returns (ok: bool)
      modifies this
      ensures match Spec.Restore(config, snapshot, version, old(epoch) + 1, old(issued))
              case None => !ok && S() == old(S())
              case Some(after) => ok && S() == after
    {
      if !Spec.Restorable(config, snapshot) {
        return false;
      }
      nextGroup, committed, retained := snapshot.nextGroup, snapshot.committed, Spec.Undelivered(snapshot.retained);
      active, policy, paused, dropped, epoch := None, version, false, snapshot.dropped, epoch + 1;
      return true;
    }
  }

  /** The learner's side of `run_training`: collecting groups for a step, and the step itself. */
  class Learner {
    const config: Spec.Config
    const manager: Manager
    var step: nat
    var groups: seq<int>
    var pausing: bool
    var checkpoint: Option<Spec.Checkpoint>
    var failure: Option<Spec.Failure>

    ghost function S(): Spec.World
      reads this, manager
    {
      Spec.World(manager.S(), step, groups, pausing, checkpoint, failure)
    }

    constructor (config: Spec.Config)
      ensures this.config == config && fresh(manager) && manager.config == config && S() == Spec.Start()
    {
      this.config := config;
      manager := new Manager(config);
      step, groups, pausing, checkpoint, failure := 0, [], false, None, None;
    }

    method Receive()
      requires manager.config == config
      modifies this, manager
      ensures S() == Spec.Receive(config, old(S()))
    {
      hide Spec.Commit, Spec.Get;
      if |groups| >= config.groupsPerStep || pausing {
        return;
      }
      var packet := manager.Get();
      if packet.None? {
        NothingTaken(old(manager.S()));
        return;
      }
      if packet.value.excluded {
        Drop(packet.value.id);
        return;
      }
      match Spec.PolicyLag(step, packet.value.version, config.maxLag)
      case Newer => failure := Some(Spec.NewerThanLearner);
      case Stale => Drop(packet.value.id);
      case Within(_) => groups := groups + [packet.value.id];
    }

    static lemma NothingTaken(m: Spec.Manager)
      ensures Spec.Get(m).1 == None ==> Spec.Get(m).0 == m
    {
    }

    method Drop(id: nat)
      modifies this`failure, manager
      ensures S() == Spec.DropPacket(old(S()), id)
    {
      hide Spec.Accepts;
      var ok := manager.Commit([], [id]);
      if !ok {
        failure := Some(Spec.CommitRejected);
      }
    }

    method Pause()
      requires manager.config == config
      modifies this`pausing, manager
      ensures S() == Spec.Pause(config, old(S()))
    {
      if |groups| >= config.groupsPerStep {
        manager.paused, pausing := true, true;
      }
    }

    /** Train on the collected groups, commit them, checkpoint the drained manager, activate and resume. */
    method Train()
      modifies this, manager
      ensures S() == Spec.Train(old(S()))
    {
      hide Spec.Accepts;
      if !pausing || manager.active.Some? {
        return;
      }
      CommitKeepsActive(manager.S(), groups);
      var ok := manager.Commit(groups, []);
      if !ok {
        failure := Some(Spec.CommitRejected);
        return;
      }
      step := step + 1;
      checkpoint := Some(Spec.Checkpoint(step, Spec.Snapshot(
        manager.nextGroup, manager.committed, manager.retained, manager.dropped)));
      manager.policy, manager.paused := step, false;
      groups, pausing := [], false;
    }

    static lemma CommitKeepsActive(m: Spec.Manager, ids: seq<int>)
      ensures Spec.Commit(m, ids, []).Some? ==> Spec.Commit(m, ids, []).value.active == m.active
    {
      hide Spec.Accepts;
    }

    method Restart()
      requires manager.config == config
      modifies this, manager
      ensures S() == Spec.Restart(config, old(S()))
    {
      hide Spec.Restorable;
      if checkpoint.Some? {
        var ok := manager.Restore(checkpoint.value.snapshot, checkpoint.value.step);
        if !ok {
          failure := Some(Spec.RestoreRejected);
          return;
        }
        step := checkpoint.value.step;
      } else {
        manager.nextGroup, manager.committed, manager.retained, manager.active := 0, 0, map[], None;
        manager.policy, manager.paused, manager.dropped, manager.epoch := 0, false, 0, manager.epoch + 1;
        step := 0;
      }
      groups, pausing := [], false;
    }

    method Next(event: Spec.Event)
      requires manager.config == config
      modifies this, manager
      ensures S() == Spec.Next(config, old(S()), event)
    {
      hide Spec.Dispatch, Spec.Sampled, Spec.Receive, Spec.Pause, Spec.Train, Spec.Restart;
      if failure.Some? {
        return;
      }
      match event
      case Dispatched => manager.Dispatch();
      case GroupSampled(excluded) => manager.Sampled(excluded);
      case Received => Receive();
      case PauseAsked => Pause();
      case Trained => Train();
      case Restarted => Restart();
    }
  }

  /** Any interleaving of both sides. */
  method Run(config: Spec.Config, events: seq<Spec.Event>) returns (learner: Learner)
    requires config.Valid()
    ensures fresh(learner) && fresh(learner.manager) && learner.S() == Spec.Run(config, events)
    ensures learner.failure == None ==> T.Running(config, learner.S())
  {
    hide T.Running, Spec.Next;
    learner := new Learner(config);
    assert events[..0] == [];
    for k := 0 to |events|
      invariant fresh(learner) && fresh(learner.manager) && learner.config == config && learner.manager.config == config
      invariant learner.S() == Spec.Run(config, events[..k])
    {
      assert events[..k + 1][..k] == events[..k];
      learner.Next(events[k]);
    }
    assert events[..|events|] == events;
    T.RunIsSafe(config, events);
  }
}
