/** The manager's recovery mailbox and the learner loop that drains it (dsv41_train/rl/manager.py,
    dsv41_train/rl/runtime.py).

    The manager samples one group at a time under increasing ids and keeps every
    group until the learner commits it. The learner takes groups in order, drops
    those that are excluded or too old at once, and commits the rest after its
    step. A restart resumes both from the last checkpoint. */
module MailboxSpec {
  import opened RowIds
  import opened Wrappers

  datatype Config = Config(queueCapacity: nat, groupsPerStep: nat, maxLag: nat)
  {
    predicate Valid() {
      1 <= queueCapacity && 1 <= groupsPerStep
    }

    function Bound(): nat {
      queueCapacity + groupsPerStep
    }
  }

  datatype Slot = Slot(version: nat, excluded: bool, delivered: bool)
  datatype Flight = Flight(id: nat, version: nat)
  datatype Packet = Packet(id: nat, version: nat, excluded: bool)
  datatype Issue = Issue(epoch: nat, id: nat)

  /** `_serve`'s locals. `issued` lists every id ever given to a sampling call. */
  datatype Manager = Manager(
    nextGroup: nat, committed: nat, retained: map<nat, Slot>, active: Option<Flight>,
    policy: nat, paused: bool, dropped: nat, epoch: nat, issued: seq<Issue>)

  /** What a checkpoint keeps of a drained manager. */
  datatype Snapshot = Snapshot(nextGroup: nat, committed: nat, retained: map<nat, Slot>, dropped: nat)

  function Fresh(): Manager {
    Manager(0, 0, map[], None, 0, false, 0, 0, [])
  }

  // ----- manager commands

  function RetainedFrom(retained: map<nat, Slot>, low: nat, high: nat): (ids: seq<int>)
    requires low <= high
    decreases high - low
  {
    if low == high then [] else (if low in retained then [low as int] else []) + RetainedFrom(retained, low + 1, high)
  }

  /** The ids of the retained packets, ascending. */
  function RetainedIds(m: Manager): seq<int> {
    RetainedFrom(m.retained, 0, m.nextGroup)
  }

  function Queued(retained: map<nat, Slot>, high: nat): nat {
    if high == 0 then 0
    else Queued(retained, high - 1) + if high - 1 in retained && !retained[high - 1].delivered then 1 else 0
  }

  function OldestUndelivered(retained: map<nat, Slot>, low: nat, high: nat): Option<nat>
    requires low <= high
    decreases high - low
  {
    if low == high then None
    else if low in retained && !retained[low].delivered then Some(low)
    else OldestUndelivered(retained, low + 1, high)
  }

  /** `get`: the oldest packet not delivered yet. */
  function Get(m: Manager): (Manager, Option<Packet>) {
    match OldestUndelivered(m.retained, 0, m.nextGroup)
    case None => (m, None)
    case Some(id) =>
      if id !in m.retained then (m, None)
      else
        var slot := m.retained[id];
        (m.(retained := m.retained[id := slot.(delivered := true)]), Some(Packet(id, slot.version, slot.excluded)))
  }

  predicate IsDelivered(retained: map<nat, Slot>, id: int) {
    0 <= id && (id as nat) in retained && retained[id as nat].delivered
  }

  /** Whether `commit` accepts these ids: without duplicates, the oldest retained ones, all delivered. */
  predicate Accepts(m: Manager, consumed: seq<int>, rejected: seq<int>) {
    var given := consumed + rejected;
    var ids := SortedUnique(given);
    && |ids| == |given| && |ids| <= |RetainedIds(m)| && ids == RetainedIds(m)[..|ids|]
    && forall k :: 0 <= k < |ids| ==> IsDelivered(m.retained, ids[k])
  }

  function Without(retained: map<nat, Slot>, ids: seq<int>): (left: map<nat, Slot>)
    ensures forall id :: id in left <==> id in retained && (id as int) !in ids
    ensures forall id :: id in left ==> left[id] == retained[id]
  {
    map id | id in retained && (id as int) !in ids :: retained[id]
  }

  function Commit(m: Manager, consumed: seq<int>, rejected: seq<int>): Option<Manager> {
    if !Accepts(m, consumed, rejected) then None
    else
      var ids := SortedUnique(consumed + rejected);
      Some(m.(retained := Without(m.retained, ids), dropped := m.dropped + |rejected|,
              committed := if ids == [] || ids[|ids| - 1] < 0 then m.committed else ids[|ids| - 1] + 1))
  }

  /** Reserve mailbox credit and the next cursor, then start sampling under the current policy. */
  function Dispatch(config: Config, m: Manager): Manager {
    if m.paused || m.active.Some? || |m.retained| >= config.Bound()
      || Queued(m.retained, m.nextGroup) >= config.queueCapacity
    then m
    else
      m.(nextGroup := m.nextGroup + 1, active := Some(Flight(m.nextGroup, m.policy)),
         issued := m.issued + [Issue(m.epoch, m.nextGroup)])
  }

  /** The sampled group becomes a retained packet. */
  function Sampled(m: Manager, excluded: bool): Manager {
    match m.active
    case None => m
    case Some(flight) =>
      m.(retained := m.retained[flight.id := Slot(flight.version, excluded, false)], active := None)
  }

  /** `snapshot` is refused while a group is being sampled. */
  function TakeSnapshot(m: Manager): Option<Snapshot> {
    if m.active.Some? then None else Some(Snapshot(m.nextGroup, m.committed, m.retained, m.dropped))
  }

  function Undelivered(retained: map<nat, Slot>): (renewed: map<nat, Slot>)
    ensures renewed.Keys == retained.Keys
    ensures forall id :: id in renewed ==> renewed[id] == retained[id].(delivered := false)
  {
    map id | id in retained :: retained[id].(delivered := false)
  }

  /** The checks on recovery state: the retained ids are exactly the open range, and not too many. */
  predicate Restorable(config: Config, snapshot: Snapshot) {
    && |snapshot.retained| <= config.Bound()
    && snapshot.committed <= snapshot.nextGroup
    && (forall id :: id in snapshot.retained ==> snapshot.committed <= id < snapshot.nextGroup)
    && (forall id: nat :: snapshot.committed <= id < snapshot.nextGroup ==> id in snapshot.retained)
  }

  function Restore(config: Config, snapshot: Snapshot, policy: nat, epoch: nat, issued: seq<Issue>): Option<Manager> {
    if !Restorable(config, snapshot) then None
    else Some(Manager(snapshot.nextGroup, snapshot.committed, Undelivered(snapshot.retained), None,
                      policy, false, snapshot.dropped, epoch, issued))
  }

  // ----- the learner

  datatype Checkpoint = Checkpoint(step: nat, snapshot: Snapshot)

  /** What ends a run. */
  datatype Failure = CommitRejected | NewerThanLearner | RestoreRejected

  /** The manager, the learner's step and the groups it collects for it, and the last checkpoint. */
  datatype World = World(
    manager: Manager, step: nat, groups: seq<int>, pausing: bool, checkpoint: Option<Checkpoint>, failure: Option<Failure>)

  function Start(): World {
    World(Fresh(), 0, [], false, None, None)
  }

  /** `policy_lag`. */
  datatype Lag = Newer | Stale | Within(lag: nat)

  function PolicyLag(step: nat, version: nat, maximum: nat): Lag {
    if version > step then Newer else if step - version > maximum then Stale else Within(step - version)
  }

  function DropPacket(w: World, id: nat): World {
    match Commit(w.manager, [], [id])
    case None => w.(failure := Some(CommitRejected))
    case Some(manager) => w.(manager := manager)
  }

  /** Take a packet: drop it if it is excluded or stale, else keep it for the step. */
  function Receive(config: Config, w: World): World {
    if |w.groups| >= config.groupsPerStep || w.pausing then w
    else
      var (manager, packet) := Get(w.manager);
      match packet
      case None => w
      case Some(p) =>
        var taken := w.(manager := manager);
        if p.excluded then DropPacket(taken, p.id)
        else
          match PolicyLag(w.step, p.version, config.maxLag)
          case Newer => taken.(failure := Some(NewerThanLearner))
          case Stale => DropPacket(taken, p.id)
          case Within(_) => taken.(groups := taken.groups + [p.id])
  }

  /** Enough groups: stop sampling. */
  function Pause(config: Config, w: World): World {
    if |w.groups| < config.groupsPerStep then w else w.(manager := w.manager.(paused := true), pausing := true)
  }

  /** Once the manager has drained: train, commit the groups, checkpoint, activate the new policy, resume. */
  function Train(w: World): World {
    if !w.pausing || w.manager.active.Some? then w
    else
      match Commit(w.manager, w.groups, [])
      case None => w.(failure := Some(CommitRejected))
      case Some(manager) =>
        match TakeSnapshot(manager)
        case None => w
        case Some(snapshot) =>
          w.(manager := manager.(policy := w.step + 1, paused := false), step := w.step + 1, groups := [],
             pausing := false, checkpoint := Some(Checkpoint(w.step + 1, snapshot)))
  }

  /** Everything stops; both sides start again from the last checkpoint, or from nothing. */
  function Restart(config: Config, w: World): World {
    match w.checkpoint
    case None =>
      w.(manager := Fresh().(epoch := w.manager.epoch + 1, issued := w.manager.issued), step := 0, groups := [], pausing := false)
    case Some(checkpoint) =>
      match Restore(config, checkpoint.snapshot, checkpoint.step, w.manager.epoch + 1, w.manager.issued)
      case None => w.(failure := Some(RestoreRejected))
      case Some(manager) => w.(manager := manager, step := checkpoint.step, groups := [], pausing := false)
  }

  datatype Event = Dispatched | GroupSampled(excluded: bool) | Received | PauseAsked | Trained | Restarted

  function Next(config: Config, w: World, event: Event): World {
    if w.failure.Some? then w
    else
      match event
      case Dispatched => w.(manager := Dispatch(config, w.manager))
      case GroupSampled(excluded) => w.(manager := Sampled(w.manager, excluded))
      case Received => Receive(config, w)
      case PauseAsked => Pause(config, w)
      case Trained => Train(w)
      case Restarted => Restart(config, w)
  }

  function Run(config: Config, events: seq<Event>): World {
    if events == [] then Start() else Next(config, Run(config, events[..|events| - 1]), events[|events| - 1])
  }
}
