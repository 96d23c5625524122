/** Policy activation gating in the benchmark training provider (rollout_manager/benchmark_training.py).

    A producer task samples one group after another while the learner's calls
    pause it, install a newer policy and resume it. Calls run under one lock,
    and each step below is a stretch between two awaits of the event loop. A
    caller gives up waiting in a thread of its own, while its call goes on in
    the loop; so its timeout may also fall between the last test a call makes
    and what it writes after it, and these are two steps. Policies are their
    versions. */
module ActivationSpec {
  import opened Wrappers

  /** The producer waits, prepares a group under the policy it asked the plan factory for, or executes a
      registered group. */
  datatype Producer = Waiting | Planning(asked: nat) | Executing(id: nat, registered: nat) | Failed

  /** A retained packet: the policy its group was registered under, the acknowledged policy when it completed,
      and whether it was excluded from training. */
  datatype Packet = Packet(registered: nat, completed: nat, excluded: bool, delivered: bool)

  /** The call that holds the control lock. A call that grants a receipt, adopts a policy or reopens the provider
      has passed its last test and is about to write. */
  datatype Control =
    | Free | Draining | ProvingDrain | Granting | Activating(prior: nat) | Adopting | Resuming | Reopening

  datatype Provider = Provider(
    producer: Producer, control: Control, active: bool, paused: bool, closing: bool, streamPaused: bool,
    cancelled: bool, error: bool, timedOut: bool, ready: bool,
    policy: nat, acknowledged: nat, nextGroup: nat, committed: nat, retained: map<nat, Packet>,
    installed: seq<nat>, drains: nat, spent: nat)

  /** A started provider serving `policy`, with the restored packets of groups committed..nextGroup. `installed`
      are the policies acknowledged so far; `drains` and `spent` count drain receipts given and used. */
  function Started(policy: nat, committed: nat, nextGroup: nat, retained: map<nat, Packet>): Provider {
    Provider(Waiting, Free, false, false, false, false, false, false, false, false,
             policy, policy, nextGroup, committed, retained, [policy], 0, 0)
  }

  // ----- the producer

  /** Lease the next group and ask for its plans. */
  function Lease(p: Provider, bound: nat): Provider {
    if p.producer != Waiting || p.paused || p.closing || |p.retained| >= bound then p
    else p.(producer := Planning(p.policy), active := true)
  }

  function ProducerFails(p: Provider): Provider {
    p.(producer := Failed, error := true, paused := true, active := false)
  }

  /** The plans arrive. They are registered only under the policy in force. */
  function Planned(p: Provider, registered: nat, wellFormed: bool): Provider {
    if !p.producer.Planning? then p
    else if !wellFormed || registered != p.policy then ProducerFails(p)
    else p.(producer := Executing(p.nextGroup, registered), nextGroup := p.nextGroup + 1)
  }

  /** The group completes and its packet is retained; or its execution or assembly fails. */
  function Completed(p: Provider, ok: bool, excluded: bool): Provider {
    if !p.producer.Executing? then p
    else if !ok then ProducerFails(p)
    else
      p.(producer := Waiting, active := false, paused := p.paused || p.cancelled,
         retained := p.retained[p.producer.id := Packet(p.producer.registered, p.acknowledged, excluded, false)])
  }

  // ----- pausing

  function BeginPause(p: Provider): Provider {
    if p.control != Free then p else p.(control := Draining, ready := false, paused := true)
  }

  /** Only once no group is active is the stream paused. */
  function Drained(p: Provider): Provider {
    if p.control != Draining || p.active then p else p.(control := ProvingDrain, streamPaused := true)
  }

  datatype Snapshot = Snapshot(nextGroup: nat, committed: nat, retained: map<nat, Packet>)

  /** A snapshot needs a proven boundary. */
  function TakeSnapshot(p: Provider): Option<Snapshot> {
    if p.active || p.error || p.cancelled then None else Some(Snapshot(p.nextGroup, p.committed, p.retained))
  }

  /** The controller answers; with its proof and a snapshot the call may grant a drain receipt. */
  function PauseEnds(p: Provider, proven: bool): (Provider, Option<Snapshot>) {
    if p.control != ProvingDrain then (p, None)
    else if !proven || p.error || TakeSnapshot(p).None? || p.timedOut then (p.(control := Free), None)
    else (p.(control := Granting), TakeSnapshot(p))
  }

  // ----- activation

  /** Spend the receipt, then check that nothing has changed since and that the policy is newer. */
  function BeginActivation(p: Provider, version: nat): Provider {
    if p.control != Free || !p.ready then p
    else
      var spent := p.(ready := false, spent := p.spent + 1);
      if p.closing || !p.paused || p.active || !p.streamPaused || p.error || p.cancelled || version <= p.policy then spent
      else spent.(control := Activating(p.policy), policy := version)
  }

  /** The controller acknowledges exactly the new policy, or the old one stays and the provider needs reconciliation. */
  function ActivationEnds(p: Provider, acknowledged: bool): (Provider, bool) {
    if !p.control.Activating? then (p, false)
    else if !acknowledged || p.timedOut then (p.(control := Free, policy := p.control.prior, error := true), false)
    else (p.(control := Adopting), true)
  }

  // ----- resuming

  function BeginResume(p: Provider): Provider {
    if p.control != Free || p.closing || p.error || p.timedOut then p else p.(control := Resuming)
  }

  function ResumeEnds(p: Provider, acknowledged: bool): (Provider, bool) {
    if p.control != Resuming then (p, false)
    else if !acknowledged || p.timedOut || p.cancelled then (p.(control := Free), false)
    else (p.(control := Reopening), true)
  }

  // ----- what a call writes after its last test

  predicate Writing(p: Provider) {
    p.control.Granting? || p.control.Adopting? || p.control.Reopening?
  }

  function Written(p: Provider): Provider {
    match p.control
    case Granting => p.(control := Free, ready := true, drains := p.drains + 1)
    case Adopting => p.(control := Free, acknowledged := p.policy, installed := p.installed + [p.policy])
    case Reopening => p.(control := Free, streamPaused := false, ready := false, paused := false)
    case _ => p
  }

  // ----- other calls

  /** A caller gives up: nothing that is still going on may count as a receipt. */
  function TimeOut(p: Provider): Provider {
    p.(timedOut := true, paused := true, ready := false, error := true)
  }

  function OldestUndelivered(retained: map<nat, Packet>, low: nat, high: nat): Option<nat>
    requires low <= high
    decreases high - low
  {
    if low == high then None
    else if low in retained && !retained[low].delivered then Some(low)
    else OldestUndelivered(retained, low + 1, high)
  }

  function Get(p: Provider): Provider {
    match OldestUndelivered(p.retained, 0, p.nextGroup)
    case None => p
    case Some(id) => if id in p.retained then p.(retained := p.retained[id := p.retained[id].(delivered := true)]) else p
  }

  /** Ids committed..stop are retained and delivered, and those consumed were not excluded. */
  predicate Committable(p: Provider, stop: nat, consumed: set<nat>) {
    && p.committed <= stop <= p.nextGroup
    && (forall id: nat :: p.committed <= id < stop ==>
          id in p.retained && p.retained[id].delivered && (id in consumed ==> !p.retained[id].excluded))
    && forall id :: id in consumed ==> p.committed <= id < stop
  }

  /** Commit the oldest delivered groups up to `stop`, of which `consumed` were trained on. */
  function Commit(p: Provider, stop: nat, consumed: set<nat>): Provider {
    if !Committable(p, stop, consumed) then p
    else p.(committed := stop, retained := map id | id in p.retained && stop <= id :: p.retained[id])
  }

  datatype Event =
    | Leased | PlansReady(registered: nat, wellFormed: bool) | GroupEnded(ok: bool, excluded: bool)
    | PauseAsked | DrainObserved | ControllerPaused(proven: bool)
    | ActivateAsked(version: nat) | ControllerActivated(acknowledged: bool)
    | ResumeAsked | ControllerResumed(acknowledged: bool) | CallWrites
    | CallerGaveUp | StreamCancelled | CloseAsked | PacketTaken | GroupsCommitted(stop: nat, consumed: set<nat>)

  /** Between a call's last test and its write the loop does nothing else; only a caller may give up. */
  function Next(p: Provider, bound: nat, event: Event): Provider {
    if Writing(p) && event != CallerGaveUp && event != CallWrites then p
    else match event
    case Leased => Lease(p, bound)
    case PlansReady(registered, wellFormed) => Planned(p, registered, wellFormed)
    case GroupEnded(ok, excluded) => Completed(p, ok, excluded)
    case PauseAsked => BeginPause(p)
    case DrainObserved => Drained(p)
    case ControllerPaused(proven) => PauseEnds(p, proven).0
    case ActivateAsked(version) => BeginActivation(p, version)
    case ControllerActivated(acknowledged) => ActivationEnds(p, acknowledged).0
    case ResumeAsked => BeginResume(p)
    case ControllerResumed(acknowledged) => ResumeEnds(p, acknowledged).0
    case CallWrites => Written(p)
    case CallerGaveUp => TimeOut(p)
    case StreamCancelled => p.(cancelled := true)
    case CloseAsked => p.(closing := true, paused := true)
    case PacketTaken => Get(p)
    case GroupsCommitted(stop, consumed) => Commit(p, stop, consumed)
  }

  function Run(initial: Provider, bound: nat, events: seq<Event>): Provider {
    if events == [] then initial else Next(Run(initial, bound, events[..|events| - 1]), bound, events[|events| - 1])
  }
}
