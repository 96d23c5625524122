/** The training loop's variables, the sampler that fills the prefetched group, and `train_group`'s checks. */
module BoundedLag {
  import opened Wrappers
  import Spec = BoundedLagSpec
  import T = BoundedLagTheorems

  class Learner {
    const cfg: Spec.Config
    var phase: Spec.Phase
    var failed: bool
    var group: nat
    var update: nat
    var parameters: nat
    var ack: Spec.Ack
    var pending: Option<Spec.Pending>
    var snapshots: map<nat, Spec.Policy>
    var serving: Spec.Policy
    ghost var published: seq<Spec.Policy>
    ghost var trained: seq<Spec.Trained>
    ghost var verdicts: seq<bool>

    ghost function S(): Spec.Learner
      reads this
    {
      Spec.Learner(phase, failed, group, update, parameters, ack, pending, snapshots, serving, published, trained, verdicts)
    }

    constructor (cfg: Spec.Config, parameters: nat, digest: nat)
      ensures this.cfg == cfg && S() == Spec.Started(cfg, parameters, digest)
    {
      var first := Spec.Policy(Spec.Ack(0, cfg.lineage, digest), parameters);
      this.cfg, this.parameters, this.ack, this.serving := cfg, parameters, first.ack, first;
      phase := if cfg.groups == 0 then Spec.Exhausted else Spec.Obtaining;
      failed, group, update, pending := false, 0, 0, None;
      snapshots := if cfg.tokenTis then map[0 := first] else map[];
      published, trained, verdicts := [first], [], [];
    }

    method Sampled()
      modifies this`pending
      ensures S() == Spec.Sampled(old(S()), cfg)
    {
      if pending.Some? && |pending.value.responses| < cfg.size {
        pending := Some(Spec.Pending(pending.value.group, pending.value.responses + [serving]));
      }
    }

    method Obtain()
      modifies this`phase
      ensures S() == Spec.Obtain(old(S()), cfg)
    {
      if phase != Spec.Obtaining {
        return;
      }
      if pending.Some? {
        if |pending.value.responses| >= cfg.size {
          phase := Spec.Judging(pending.value.responses, true);
        }
      } else {
        phase := Spec.Judging(Spec.Repeated(serving, cfg.size), false);
      }
    }

    method NextGroup()
      modifies this`phase, this`group
      ensures S() == Spec.NextGroup(old(S()), cfg)
    {
      if group + 1 < cfg.groups {
        phase, group := Spec.Obtaining, group + 1;
      } else {
        phase := Spec.Exhausted;
      }
    }

    method Judge(usable: bool)
      modifies this`phase, this`group, this`pending, this`verdicts
      ensures S() == Spec.Judge(old(S()), cfg, usable)
    {
      if !phase.Judging? {
        return;
      }
      verdicts, pending := verdicts + [usable], None;
      if !usable {
        NextGroup();
        return;
      }
      if cfg.prefetch && update + 1 > 1 && group + 1 < cfg.groups && update + 1 < cfg.updates {
        pending := Some(Spec.Pending(group + 1, []));
      }
      phase := Spec.Training(phase.responses, phase.prefetched);
    }

    /** The acknowledgement the group was generated under, if the lag and anchor checks pass. */
    method Check(responses: seq<Spec.Policy>, snapshot: Option<Spec.Policy>) returns (generating: Option<Spec.Ack>)
      ensures generating == Spec.Check(cfg, ack, update + 1, responses, snapshot)
    {
      if |responses| != cfg.size || cfg.size == 0 {
        return None;
      }
      var candidate := responses[0].ack;
      if cfg.tokenTis {
        candidate := if snapshot.Some? then snapshot.value.ack else ack;
      }
      if ack.version != update {
        return None;
      }
      for k := 0 to |responses|
        invariant forall j :: 0 <= j < k ==> responses[j].ack == candidate
      {
        if responses[k].ack != candidate {
          return None;
        }
      }
      var lag := ack.version - candidate.version;
      if lag < 0 || lag > (if cfg.prefetch then 1 else 0) || candidate.lineage != ack.lineage || (lag == 0 && candidate != ack) {
        return None;
      }
      return Some(candidate);
    }

    method Train(stepped: nat)
      modifies this`phase, this`update, this`parameters, this`trained
      ensures S() == Spec.Train(old(S()), cfg, stepped)
    {
      if !phase.Training? {
        return;
      }
      var responses := phase.responses;
      var snapshot := None;
      if responses != [] && responses[0].ack.version in snapshots {
        snapshot := Some(snapshots[responses[0].ack.version]);
      }
      var generating := Check(responses, snapshot);
      if generating.None? || generating.value.version > ack.version {
        phase := Spec.Rejected;
        return;
      }
      var lag := ack.version - generating.value.version;
      var anchor := None;
      if cfg.tokenTis {
        anchor := Some(if lag > 0 && snapshot.Some? then snapshot.value.parameters else parameters);
      }
      trained := trained + [Spec.Trained(group, update + 1, lag, responses, phase.prefetched, anchor)];
      phase, update, parameters := Spec.Joining, update + 1, stepped;
    }

    method Join()
      modifies this`phase
      ensures S() == Spec.Join(old(S()), cfg)
    {
      if phase == Spec.Joining && (pending.None? || |pending.value.responses| >= cfg.size) {
        phase := Spec.Activating;
      }
    }

    method Activate(digest: nat)
      modifies this`phase, this`group, this`ack, this`serving, this`published, this`snapshots
      ensures S() == Spec.Activate(old(S()), cfg, digest)
    {
      if phase != Spec.Activating {
        return;
      }
      var policy := Spec.Policy(Spec.Ack(update, cfg.lineage, digest), parameters);
      ack, serving, published := policy.ack, policy, published + [policy];
      if cfg.tokenTis {
        snapshots := Spec.Pruned(snapshots[update := policy], update);
      }
      if update >= cfg.updates {
        phase := Spec.Completed;
      } else {
        NextGroup();
      }
    }

    method Fail()
      modifies this`failed
      ensures S() == old(S()).(failed := true)
    {
      failed := true;
    }

    method Next(event: Spec.Event)
      modifies this
      ensures S() == Spec.Next(old(S()), cfg, event)
    {
      hide Spec.Sampled, Spec.Obtain, Spec.Judge, Spec.Train, Spec.Join, Spec.Activate;
      if failed {
        return;
      }
      match event
      case ResponseArrives => Sampled();
      case Obtains => Obtain();
      case Judges(usable) => Judge(usable);
      case Trains(stepped) => Train(stepped);
      case Joins => Join();
      case Activates(digest) => Activate(digest);
      case Fails => Fail();
    }
  }

  /** Any interleaving of the learner and the sampler, with any verdicts, optimizer steps and failures. */
  method Run(cfg: Spec.Config, parameters: nat, digest: nat, events: seq<Spec.Event>) returns (learner: Learner)
    requires Spec.ValidConfig(cfg)
    ensures fresh(learner) && learner.S() == Spec.Run(Spec.Started(cfg, parameters, digest), cfg, events)
    ensures T.Sound(learner.S(), cfg)
  {
    hide T.Sound, Spec.Next, Spec.Started;
    learner := new Learner(cfg, parameters, digest);
    assert events[..0] == [];
    for k := 0 to |events|
      invariant fresh(learner) && learner.cfg == cfg
      invariant learner.S() == Spec.Run(Spec.Started(cfg, parameters, digest), cfg, events[..k])
    {
      assert events[..k + 1][..k] == events[..k];
      learner.Next(events[k]);
    }
    assert events[..|events|] == events;
    T.RunSound(cfg, parameters, digest, events);
  }
}
