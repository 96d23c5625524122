/** The update loop of distributed GRPO with prefetch (dsv41_train/rl/distributed_grpo.py).

    The learner walks over the training records. While it trains on one group a sampler may already draw the
    next one from the worker, which serves the last activated adapter; the sampler's responses arrive at any
    moment, so each is stamped with the policy served at that moment. Parameters are abstract values. */
module BoundedLagSpec {
  import opened Wrappers

  /** The worker's acknowledgement of an activated adapter packet. */
  datatype Ack = Ack(version: nat, lineage: nat, digest: nat)

  /** An acknowledged policy and the adapter parameters behind it. A response is represented by the policy it was
      sampled under, of which the learner sees only the acknowledgement. */
  datatype Policy = Policy(ack: Ack, parameters: nat)

  datatype Config = Config(groups: nat, updates: nat, size: nat, prefetch: bool, tokenTis: bool, lineage: nat)

  datatype Pending = Pending(group: nat, responses: seq<Policy>)

  datatype Phase =
    | Obtaining
    | Judging(responses: seq<Policy>, prefetched: bool)
    | Training(responses: seq<Policy>, prefetched: bool)
    | Joining
    | Activating
    | Completed
    | Exhausted
    | Rejected

  /** One `train_group` call: `anchor` are the parameters its native-old pass scored with, if it made one. */
  datatype Trained =
    Trained(group: nat, update: nat, lag: nat, responses: seq<Policy>, prefetched: bool, anchor: Option<nat>)

  /** `published` lists every policy activated so far, `verdicts` whether each judged group was usable. */
  datatype Learner = Learner(
    phase: Phase, failed: bool, group: nat, update: nat, parameters: nat, ack: Ack,
    pending: Option<Pending>, snapshots: map<nat, Policy>,
    serving: Policy, published: seq<Policy>, trained: seq<Trained>, verdicts: seq<bool>)

  predicate ValidConfig(cfg: Config) {
    1 <= cfg.updates <= cfg.groups && 1 <= cfg.size
  }

  function Started(cfg: Config, parameters: nat, digest: nat): Learner {
    var first := Policy(Ack(0, cfg.lineage, digest), parameters);
    Learner(if cfg.groups == 0 then Exhausted else Obtaining, false, 0, 0, parameters, first.ack, None,
            if cfg.tokenTis then map[0 := first] else map[], first, [first], [], [])
  }

  // ----- the sampler

  /** One more response of the prefetched group, sampled under whatever the worker serves now. */
  function Sampled(s: Learner, cfg: Config): Learner {
    match s.pending
    case None => s
    case Some(p) =>
      if |p.responses| >= cfg.size then s
      else s.(pending := Some(p.(responses := p.responses + [s.serving])))
  }

  // ----- the learner

  function Repeated(policy: Policy, count: nat): (responses: seq<Policy>)
    ensures |responses| == count && forall k :: 0 <= k < count ==> responses[k] == policy
  {
    seq(count, _ => policy)
  }

  /** Wait for the prefetched group, or sample the current record here and now. */
  function Obtain(s: Learner, cfg: Config): Learner {
    if s.phase != Obtaining then s
    else match s.pending
      case None => s.(phase := Judging(Repeated(s.serving, cfg.size), false))
      case Some(p) => if |p.responses| < cfg.size then s else s.(phase := Judging(p.responses, true))
  }

  function NextGroup(s: Learner, cfg: Config): Learner {
    if s.group + 1 < cfg.groups then s.(phase := Obtaining, group := s.group + 1) else s.(phase := Exhausted)
  }

  /** A group whose rewards are all equal is skipped. Before a usable one is trained on, the next record is
      handed to the sampler from the second update on, if there is a next record and a next update. */
  function Judge(s: Learner, cfg: Config, usable: bool): Learner {
    if !s.phase.Judging? then s
    else
      var judged := s.(verdicts := s.verdicts + [usable], pending := None);
      if !usable then NextGroup(judged, cfg)
      else
        var update := s.update + 1;
        judged.(phase := Training(s.phase.responses, s.phase.prefetched),
                pending := if cfg.prefetch && update > 1 && s.group + 1 < cfg.groups && update < cfg.updates
                           then Some(Pending(s.group + 1, [])) else None)
  }

  predicate SameAck(responses: seq<Policy>, ack: Ack) {
    forall k :: 0 <= k < |responses| ==> responses[k].ack == ack
  }

  predicate LagAllowed(cfg: Config, expected: Ack, generating: Ack) {
    && 0 <= expected.version - generating.version <= (if cfg.prefetch then 1 else 0)
    && expected.lineage == generating.lineage
    && (expected.version == generating.version ==> generating == expected)
  }

  /** The lag and anchor checks of `train_group` for the coming update: the generating policy, if they pass. */
  function Check(cfg: Config, expected: Ack, update: nat, responses: seq<Policy>, snapshot: Option<Policy>): Option<Ack> {
    if |responses| != cfg.size || cfg.size == 0 then None
    else
      var generating :=
        if !cfg.tokenTis then responses[0].ack else if snapshot.Some? then snapshot.value.ack else expected;
      if expected.version != update - 1 || !SameAck(responses, generating) || !LagAllowed(cfg, expected, generating) then None
      else Some(generating)
  }

  function Snapshot(s: Learner, responses: seq<Policy>): Option<Policy> {
    if responses != [] && responses[0].ack.version in s.snapshots then Some(s.snapshots[responses[0].ack.version]) else None
  }

  /** Score, accumulate and step to `parameters`. The native-old pass runs on the snapshot if the group lags. */
  function Train(s: Learner, cfg: Config, parameters: nat): Learner {
    if !s.phase.Training? then s
    else
      var update := s.update + 1;
      var snapshot := Snapshot(s, s.phase.responses);
      match Check(cfg, s.ack, update, s.phase.responses, snapshot)
      case None => s.(phase := Rejected)
      case Some(generating) =>
        if generating.version > s.ack.version then s.(phase := Rejected)
        else
          var lag := s.ack.version - generating.version;
          var anchor :=
            if !cfg.tokenTis then None
            else if lag > 0 && snapshot.Some? then Some(snapshot.value.parameters) else Some(s.parameters);
          s.(phase := Joining, update := update, parameters := parameters,
             trained := s.trained + [Trained(s.group, update, lag, s.phase.responses, s.phase.prefetched, anchor)])
  }

  /** Nothing is paused before the prefetched group is whole. */
  function Join(s: Learner, cfg: Config): Learner {
    if s.phase != Joining || (s.pending.Some? && |s.pending.value.responses| < cfg.size) then s
    else s.(phase := Activating)
  }

  function Pruned(snapshots: map<nat, Policy>, update: nat): map<nat, Policy> {
    map v | v in snapshots && v >= update - 1 :: snapshots[v]
  }

  /** Export the new adapter, activate it, keep its snapshot and drop those two or more updates old. */
  function Activate(s: Learner, cfg: Config, digest: nat): Learner {
    if s.phase != Activating then s
    else
      var policy := Policy(Ack(s.update, cfg.lineage, digest), s.parameters);
      var activated :=
        s.(ack := policy.ack, serving := policy, published := s.published + [policy],
           snapshots := if cfg.tokenTis then Pruned(s.snapshots[s.update := policy], s.update) else s.snapshots);
      if s.update >= cfg.updates then activated.(phase := Completed) else NextGroup(activated, cfg)
  }

  datatype Event =
    | ResponseArrives | Obtains | Judges(usable: bool) | Trains(parameters: nat) | Joins | Activates(digest: nat) | Fails

  /** Any step after a failure is none: the run has raised. */
  function Next(s: Learner, cfg: Config, event: Event): Learner {
    if s.failed then s
    else match event
      case ResponseArrives => Sampled(s, cfg)
      case Obtains => Obtain(s, cfg)
      case Judges(usable) => Judge(s, cfg, usable)
      case Trains(parameters) => Train(s, cfg, parameters)
      case Joins => Join(s, cfg)
      case Activates(digest) => Activate(s, cfg, digest)
      case Fails => s.(failed := true)
  }

  function Run(initial: Learner, cfg: Config, events: seq<Event>): Learner {
    if events == [] then initial else Next(Run(initial, cfg, events[..|events| - 1]), cfg, events[|events| - 1])
  }
}
