/** What every run of the update loop keeps: bounded lag, exact anchors, retained snapshots, no rejection. */
module BoundedLagTheorems {
  import opened Wrappers
  import opened BoundedLagSpec

  // ----- the invariant, over only the parts each clause needs

  predicate MidUpdate(phase: Phase) {
    phase.Joining? || phase.Activating?
  }

  /** Published policies are numbered from zero under one lineage. */
  predicate Numbered(published: seq<Policy>, cfg: Config) {
    published != [] && forall v :: 0 <= v < |published| ==> published[v].ack.version == v && published[v].ack.lineage == cfg.lineage
  }

  /** The worker serves, and the learner expects, the newest published policy. Between an optimizer step and
      its activation the learner's parameters are one update ahead. */
  predicate Current(s: Learner, cfg: Config) {
    && Numbered(s.published, cfg)
    && s.serving == s.published[|s.published| - 1] && s.ack == s.serving.ack
    && |s.published| == (if MidUpdate(s.phase) then s.update else s.update + 1)
    && (!MidUpdate(s.phase) ==> s.parameters == s.serving.parameters)
  }

  /** All responses were sampled under the published policy `version`. */
  predicate Under(responses: seq<Policy>, published: seq<Policy>, version: int) {
    0 <= version < |published| && forall k :: 0 <= k < |responses| ==> responses[k] == published[version]
  }

  /** A whole group for the coming update, one policy old if it was prefetched and current otherwise. */
  predicate Fresh(responses: seq<Policy>, prefetched: bool, published: seq<Policy>, update: nat, cfg: Config) {
    && |responses| == cfg.size && (prefetched ==> cfg.prefetch && update > 0)
    && Under(responses, published, if prefetched then update - 1 else update)
  }

  predicate PendingFits(pending: Option<Pending>, published: seq<Policy>, group: nat, version: int, cfg: Config) {
    pending.Some? ==>
      && cfg.prefetch && pending.value.group == group && group < cfg.groups
      && |pending.value.responses| <= cfg.size && Under(pending.value.responses, published, version)
  }

  predicate Whole(pending: Option<Pending>, cfg: Config) {
    pending.Some? ==> |pending.value.responses| == cfg.size
  }

  predicate Prefetching(s: Learner, cfg: Config) {
    match s.phase
    case Obtaining => PendingFits(s.pending, s.published, s.group, s.update - 1, cfg) && Whole(s.pending, cfg)
    case Judging(responses, prefetched) => Fresh(responses, prefetched, s.published, s.update, cfg)
    case Training(responses, prefetched) =>
      && Fresh(responses, prefetched, s.published, s.update, cfg)
      && PendingFits(s.pending, s.published, s.group + 1, s.update, cfg)
      && (s.pending.Some? ==> s.update + 1 < cfg.updates)
    case Joining => PendingFits(s.pending, s.published, s.group + 1, s.update - 1, cfg) && (s.pending.Some? ==> s.update < cfg.updates)
    case Activating =>
      PendingFits(s.pending, s.published, s.group + 1, s.update - 1, cfg) && Whole(s.pending, cfg) && (s.pending.Some? ==> s.update < cfg.updates)
    case Completed => s.pending == None && s.update == cfg.updates
    case Exhausted => s.pending == None
    case Rejected => false
  }

  /** Token-TIS keeps exactly the newest policy and the one before it, with the parameters they were published with. */
  ghost predicate Retained(snapshots: map<nat, Policy>, published: seq<Policy>, cfg: Config) {
    && (forall v: nat :: v in snapshots <==> cfg.tokenTis && |published| - 2 <= v < |published|)
    && (forall v: nat :: v in snapshots && v < |published| ==> snapshots[v] == published[v])
  }

  /** A call of `train_group`: all responses under one policy, behind the learner's by one exactly if the group was
      prefetched; and the native-old pass scored with the very parameters that sampled them. */
  predicate WithinLag(t: Trained, published: seq<Policy>, cfg: Config) {
    var generating := t.update - 1 - t.lag;
    && 1 <= t.update <= |published| && |t.responses| == cfg.size
    && t.lag == (if t.prefetched then 1 else 0) && (t.prefetched ==> cfg.prefetch)
    && Under(t.responses, published, generating)
    && t.anchor == if cfg.tokenTis then Some(published[generating].parameters) else None
  }

  predicate AllWithinLag(trained: seq<Trained>, published: seq<Policy>, cfg: Config) {
    forall k :: 0 <= k < |trained| ==> trained[k].update == k + 1 && WithinLag(trained[k], published, cfg)
  }

  function CountTrue(verdicts: seq<bool>): nat {
    if verdicts == [] then 0
    else CountTrue(verdicts[..|verdicts| - 1]) + if verdicts[|verdicts| - 1] then 1 else 0
  }

  /** Records are judged in order, and every usable one is trained on, once, before the next is judged. */
  predicate Walked(s: Learner, cfg: Config) {
    && |s.trained| == s.update <= cfg.updates && s.group < cfg.groups
    && |s.verdicts| == (if s.phase.Obtaining? || s.phase.Judging? then s.group else s.group + 1)
    && CountTrue(s.verdicts) == (if s.phase.Training? || s.phase.Rejected? then s.update + 1 else s.update)
    && (s.phase.Obtaining? || s.phase.Judging? || s.phase.Training? || s.phase.Exhausted? ==> s.update < cfg.updates)
    && (s.phase.Exhausted? ==> s.group + 1 == cfg.groups)
    && (s.phase.Training? ==> s.verdicts[s.group])
  }

  predicate UsableInOrder(trained: seq<Trained>, verdicts: seq<bool>) {
    && (forall k :: 0 <= k < |trained| ==> trained[k].group < |verdicts| && verdicts[trained[k].group])
    && (forall j, k :: 0 <= j < k < |trained| ==> trained[j].group < trained[k].group)
  }

  /** While a usable group waits to be trained on, every trained one precedes it. */
  predicate Earlier(s: Learner) {
    s.phase.Training? || s.phase.Judging? || s.phase.Obtaining? ==>
      forall k :: 0 <= k < |s.trained| ==> s.trained[k].group < s.group
  }

  ghost predicate Sound(s: Learner, cfg: Config) {
    && Current(s, cfg) && Prefetching(s, cfg) && Retained(s.snapshots, s.published, cfg)
    && AllWithinLag(s.trained, s.published, cfg)
    && Walked(s, cfg) && UsableInOrder(s.trained, s.verdicts) && Earlier(s)
  }

  // ----- each step keeps it

  lemma StartedSound(cfg: Config, parameters: nat, digest: nat)
    requires ValidConfig(cfg)
    ensures Sound(Started(cfg, parameters, digest), cfg)
  {
  }

  lemma SampledSound(s: Learner, cfg: Config)
    requires ValidConfig(cfg) && Sound(s, cfg)
    ensures Sound(Sampled(s, cfg), cfg)
  {
  }

  lemma ObtainSound(s: Learner, cfg: Config)
    requires ValidConfig(cfg) && Sound(s, cfg)
    ensures Sound(Obtain(s, cfg), cfg)
  {
  }

  /** What judging adds to the verdicts. */
  lemma VerdictAdded(verdicts: seq<bool>, usable: bool, trained: seq<Trained>)
    requires UsableInOrder(trained, verdicts)
    ensures CountTrue(verdicts + [usable]) == CountTrue(verdicts) + if usable then 1 else 0
    ensures UsableInOrder(trained, verdicts + [usable])
  {
    assert (verdicts + [usable])[..|verdicts|] == verdicts;
  }

  lemma SkipSound(s: Learner, cfg: Config)
    requires ValidConfig(cfg) && Sound(s, cfg) && s.phase.Judging?
    ensures Sound(Judge(s, cfg, false), cfg)
  {
    hide CountTrue, UsableInOrder, AllWithinLag, Retained, Numbered, Fresh, Under;
    VerdictAdded(s.verdicts, false, s.trained);
  }

  lemma UseSound(s: Learner, cfg: Config)
    requires ValidConfig(cfg) && Sound(s, cfg) && s.phase.Judging?
    ensures Sound(Judge(s, cfg, true), cfg)
  {
    hide CountTrue, UsableInOrder, AllWithinLag, Retained, Fresh;
    VerdictAdded(s.verdicts, true, s.trained);
    assert Under([], s.published, s.update);
  }

  lemma JudgeSound(s: Learner, cfg: Config, usable: bool)
    requires ValidConfig(cfg) && Sound(s, cfg)
    ensures Sound(Judge(s, cfg, usable), cfg)
  {
    hide Sound;
    if s.phase.Judging? {
      hide Judge;
      if usable {
        UseSound(s, cfg);
      } else {
        SkipSound(s, cfg);
      }
    } else {
      JudgeIdle(s, cfg, usable);
    }
  }

  lemma JudgeIdle(s: Learner, cfg: Config, usable: bool)
    requires !s.phase.Judging?
    ensures Judge(s, cfg, usable) == s
  {
  }

  /** The checks pass: the group's one policy is retained if it lags, and is the learner's if it does not. */
  lemma ChecksPass(s: Learner, cfg: Config)
    requires ValidConfig(cfg) && s.phase.Training?
    requires Current(s, cfg) && Prefetching(s, cfg) && Retained(s.snapshots, s.published, cfg)
    ensures s.phase.responses != [] && Check(cfg, s.ack, s.update + 1, s.phase.responses, Snapshot(s, s.phase.responses)) ==
              Some(s.published[if s.phase.prefetched then s.update - 1 else s.update].ack)
    ensures cfg.tokenTis ==>
              Snapshot(s, s.phase.responses) == Some(s.published[if s.phase.prefetched then s.update - 1 else s.update])
  {
    assert s.phase.responses[0] in s.phase.responses;
  }

  /** What one `train_group` call leaves behind. */
  lemma TrainEntry(s: Learner, cfg: Config, parameters: nat)
    requires ValidConfig(cfg) && s.phase.Training?
    requires Current(s, cfg) && Prefetching(s, cfg) && Retained(s.snapshots, s.published, cfg)
    ensures var after := Train(s, cfg, parameters);
            && after.phase == Joining && |after.trained| == |s.trained| + 1
            && after == s.(phase := Joining, update := s.update + 1, parameters := parameters, trained := after.trained)
            && after.trained == s.trained + [after.trained[|s.trained|]]
            && after.trained[|s.trained|].group == s.group && after.trained[|s.trained|].update == s.update + 1
            && WithinLag(after.trained[|s.trained|], s.published, cfg)
  {
    ChecksPass(s, cfg);
  }

  lemma TrainSound(s: Learner, cfg: Config, parameters: nat)
    requires ValidConfig(cfg) && Sound(s, cfg)
    ensures Sound(Train(s, cfg, parameters), cfg)
  {
    hide Train, WithinLag, Numbered, Retained, Under;
    if s.phase.Training? {
      TrainEntry(s, cfg, parameters);
    } else {
      TrainIdle(s, cfg, parameters);
    }
  }

  lemma TrainIdle(s: Learner, cfg: Config, parameters: nat)
    requires !s.phase.Training?
    ensures Train(s, cfg, parameters) == s
  {
  }

  lemma JoinSound(s: Learner, cfg: Config)
    requires ValidConfig(cfg) && Sound(s, cfg)
    ensures Sound(Join(s, cfg), cfg)
  {
  }

  /** A new policy leaves what earlier calls of `train_group` were given as it was. */
  lemma StillWithinLag(trained: seq<Trained>, published: seq<Policy>, policy: Policy, cfg: Config)
    requires AllWithinLag(trained, published, cfg)
    ensures AllWithinLag(trained, published + [policy], cfg)
  {
    forall k | 0 <= k < |trained| ensures WithinLag(trained[k], published + [policy], cfg) {
      assert WithinLag(trained[k], published, cfg);
    }
  }

  lemma StillUnder(responses: seq<Policy>, published: seq<Policy>, policy: Policy, version: int)
    requires Under(responses, published, version)
    ensures Under(responses, published + [policy], version)
  {
  }

  /** Pruning keeps exactly the two newest snapshots. */
  lemma PrunedRetained(snapshots: map<nat, Policy>, published: seq<Policy>, policy: Policy, cfg: Config)
    requires Retained(snapshots, published, cfg) && cfg.tokenTis && published != []
    ensures Retained(Pruned(snapshots[|published| := policy], |published|), published + [policy], cfg)
  {
  }

  lemma NumberedGrows(published: seq<Policy>, policy: Policy, cfg: Config)
    requires Numbered(published, cfg) && policy.ack.version == |published| && policy.ack.lineage == cfg.lineage
    ensures Numbered(published + [policy], cfg)
  {
  }

  lemma ActivateSound(s: Learner, cfg: Config, digest: nat)
    requires ValidConfig(cfg) && Sound(s, cfg)
    ensures Sound(Activate(s, cfg, digest), cfg)
  {
    hide AllWithinLag, Retained, Under, Pruned, Numbered;
    if s.phase.Activating? {
      var policy := Policy(Ack(s.update, cfg.lineage, digest), s.parameters);
      NumberedGrows(s.published, policy, cfg);
      StillWithinLag(s.trained, s.published, policy, cfg);
      NumberedSome(s.published, cfg);
      if cfg.tokenTis {
        PrunedRetained(s.snapshots, s.published, policy, cfg);
      } else {
        NoneRetained(s.snapshots, s.published, policy, cfg);
      }
      if s.pending.Some? {
        StillUnder(s.pending.value.responses, s.published, policy, s.update - 1);
      }
    }
  }

  lemma NumberedSome(published: seq<Policy>, cfg: Config)
    requires Numbered(published, cfg)
    ensures published != []
  {
  }

  lemma NoneRetained(snapshots: map<nat, Policy>, published: seq<Policy>, policy: Policy, cfg: Config)
    requires Retained(snapshots, published, cfg) && !cfg.tokenTis
    ensures Retained(snapshots, published + [policy], cfg)
  {
  }

  lemma NextSound(s: Learner, cfg: Config, event: Event)
    requires ValidConfig(cfg) && Sound(s, cfg)
    ensures Sound(Next(s, cfg, event), cfg)
  {
    hide Sound, Sampled, Obtain, Judge, Train, Join, Activate;
    if !s.failed {
      match event
      case ResponseArrives => SampledSound(s, cfg);
      case Obtains => ObtainSound(s, cfg);
      case Judges(usable) => JudgeSound(s, cfg, usable);
      case Trains(parameters) => TrainSound(s, cfg, parameters);
      case Joins => JoinSound(s, cfg);
      case Activates(digest) => ActivateSound(s, cfg, digest);
      case Fails => FailSound(s, cfg);
    }
  }

  lemma FailSound(s: Learner, cfg: Config)
    requires Sound(s, cfg)
    ensures Sound(s.(failed := true), cfg)
  {
  }

  /** Every run, whatever arrives when and whatever fails where, stays sound. */
  lemma {:induction false} RunSound(cfg: Config, parameters: nat, digest: nat, events: seq<Event>)
    requires ValidConfig(cfg)
    ensures Sound(Run(Started(cfg, parameters, digest), cfg, events), cfg)
  {
    hide Sound, Next, Started;
    if events == [] {
      StartedSound(cfg, parameters, digest);
    } else {
      RunSound(cfg, parameters, digest, events[..|events| - 1]);
      NextSound(Run(Started(cfg, parameters, digest), cfg, events[..|events| - 1]), cfg, events[|events| - 1]);
    }
  }

  // ----- the promises

  /** Bounded lag. Every group that reached `train_group` was sampled whole under one published policy: the
      learner's own, or with prefetch the one just before. The checks never rejected, and under Token-TIS the
      native-old pass scored with exactly the parameters that sampled the group. */
  lemma LagIsBounded(cfg: Config, parameters: nat, digest: nat, events: seq<Event>, k: nat)
    requires ValidConfig(cfg)
    requires k < |Run(Started(cfg, parameters, digest), cfg, events).trained|
    ensures var s := Run(Started(cfg, parameters, digest), cfg, events);
            var t := s.trained[k];
            && t.update == k + 1 && |t.responses| == cfg.size
            && 0 <= k - t.lag < |s.published| && t.lag <= (if cfg.prefetch then 1 else 0)
            && (forall i :: 0 <= i < cfg.size ==> t.responses[i] == s.published[k - t.lag] && t.responses[i].ack.version == k - t.lag)
            && (cfg.tokenTis ==> forall i :: 0 <= i < cfg.size ==> t.anchor == Some(t.responses[i].parameters))
  {
    hide Run, Started;
    RunSound(cfg, parameters, digest, events);
    var s := Run(Started(cfg, parameters, digest), cfg, events);
    assert WithinLag(s.trained[k], s.published, cfg);
  }

  lemma NeverRejects(cfg: Config, parameters: nat, digest: nat, events: seq<Event>)
    requires ValidConfig(cfg)
    ensures Run(Started(cfg, parameters, digest), cfg, events).phase != Rejected
  {
    hide Run, Started;
    RunSound(cfg, parameters, digest, events);
  }

  /** At most two adapter snapshots are held, and none without Token-TIS. */
  lemma SnapshotsAreFew(cfg: Config, parameters: nat, digest: nat, events: seq<Event>)
    requires ValidConfig(cfg)
    ensures |Run(Started(cfg, parameters, digest), cfg, events).snapshots| <= (if cfg.tokenTis then 2 else 0)
  {
    hide Run, Started;
    RunSound(cfg, parameters, digest, events);
    var s := Run(Started(cfg, parameters, digest), cfg, events);
    FewRetained(s.snapshots, s.published, cfg);
  }

  lemma FewRetained(snapshots: map<nat, Policy>, published: seq<Policy>, cfg: Config)
    requires Retained(snapshots, published, cfg)
    ensures |snapshots| <= (if cfg.tokenTis then 2 else 0)
  {
    var newest: set<nat> :=
      if !cfg.tokenTis || published == [] then {}
      else if |published| == 1 then {0} else {|published| - 1, |published| - 2};
    assert snapshots.Keys <= newest;
    assert newest == snapshots.Keys + (newest - snapshots.Keys);
  }

  /** The run ends with all requested updates, or with every record judged and too few usable; and the groups
      trained on are the usable ones, in order and without repetition. */
  lemma TrainsTheUsable(cfg: Config, parameters: nat, digest: nat, events: seq<Event>)
    requires ValidConfig(cfg)
    ensures var s := Run(Started(cfg, parameters, digest), cfg, events);
            && UsableInOrder(s.trained, s.verdicts) && |s.trained| == s.update <= CountTrue(s.verdicts) <= s.update + 1
            && (s.phase == Completed ==> s.update == cfg.updates == CountTrue(s.verdicts))
            && (s.phase == Exhausted ==> |s.verdicts| == cfg.groups && CountTrue(s.verdicts) == s.update < cfg.updates)
            && (s.phase == Completed || s.phase == Exhausted ==> s.pending == None)
  {
    hide Run, Started, CountTrue;
    RunSound(cfg, parameters, digest, events);
  }

  // ----- progress

  predicate Ended(s: Learner) {
    s.failed || s.phase == Completed || s.phase == Exhausted || s.phase == Rejected
  }

  function PhaseSteps(phase: Phase): nat {
    match phase
    case Obtaining => 5
    case Judging(_, _) => 4
    case Training(_, _) => 3
    case Joining => 2
    case Activating => 1
    case _ => 0
  }

  function Missing(s: Learner, cfg: Config): nat {
    if s.pending.Some? && |s.pending.value.responses| < cfg.size then cfg.size - |s.pending.value.responses| else 0
  }

  /** The learner's next step. While it joins an unfinished group it waits for the sampler. */
  function Due(s: Learner, cfg: Config): Event {
    match s.phase
    case Obtaining => if Missing(s, cfg) > 0 then ResponseArrives else Obtains
    case Judging(_, _) => Judges(true)
    case Training(_, _) => Trains(0)
    case Joining => if Missing(s, cfg) > 0 then ResponseArrives else Joins
    case _ => Activates(0)
  }

  /** The loop never stalls: until it ends, the step due brings it nearer to its end. */
  lemma NeverStalls(s: Learner, cfg: Config, usable: bool, parameters: nat, digest: nat)
    requires ValidConfig(cfg) && Sound(s, cfg) && !Ended(s)
    ensures var event := match Due(s, cfg)
              case Judges(_) => Judges(usable) case Trains(_) => Trains(parameters) case Activates(_) => Activates(digest)
              case other => other;
            var after := Next(s, cfg, event);
            || Ended(after) || after.group > s.group
            || (after.group == s.group && PhaseSteps(after.phase) < PhaseSteps(s.phase))
            || (after.group == s.group && after.phase == s.phase && Missing(after, cfg) < Missing(s, cfg))
  {
  }

  // ----- when groups are prefetched

  /** The record is the one right after the last trained one, and from the second update on that one was trained while
      the sampler could work. */
  predicate RightAfter(trained: seq<Trained>, group: nat, cfg: Config) {
    cfg.prefetch && |trained| >= 2 && trained[|trained| - 1].group + 1 == group
  }

  predicate MayPrefetch(s: Learner, update: nat, cfg: Config) {
    cfg.prefetch && update > 1 && s.group + 1 < cfg.groups && update < cfg.updates
  }

  predicate PrefetchedSo(trained: seq<Trained>, cfg: Config) {
    forall k :: 0 <= k < |trained| ==> (trained[k].prefetched <==> RightAfter(trained[..k], trained[k].group, cfg))
  }

  predicate Traced(s: Learner, cfg: Config) {
    && PrefetchedSo(s.trained, cfg)
    && match s.phase
       case Obtaining => s.pending.Some? <==> RightAfter(s.trained, s.group, cfg)
       case Judging(_, prefetched) => prefetched <==> RightAfter(s.trained, s.group, cfg)
       case Training(_, prefetched) =>
         (prefetched <==> RightAfter(s.trained, s.group, cfg)) && (s.pending.Some? <==> MayPrefetch(s, s.update + 1, cfg))
       case Joining => LastIsCurrent(s) && (s.pending.Some? <==> MayPrefetch(s, s.update, cfg))
       case Activating => LastIsCurrent(s) && (s.pending.Some? <==> MayPrefetch(s, s.update, cfg))
       case _ => true
  }

  predicate LastIsCurrent(s: Learner) {
    s.trained != [] && s.trained[|s.trained| - 1].group == s.group
  }

  lemma OneMoreTrained(trained: seq<Trained>, last: Trained, cfg: Config)
    requires PrefetchedSo(trained, cfg) && (last.prefetched <==> RightAfter(trained, last.group, cfg))
    ensures PrefetchedSo(trained + [last], cfg)
  {
    var more := trained + [last];
    forall k | 0 <= k < |more| ensures more[k].prefetched <==> RightAfter(more[..k], more[k].group, cfg) {
      if k < |trained| {
        assert more[..k] == trained[..k];
      } else {
        assert more[..k] == trained;
      }
    }
  }

  lemma NextTraced(s: Learner, cfg: Config, event: Event)
    requires ValidConfig(cfg) && Sound(s, cfg) && Traced(s, cfg)
    ensures Traced(Next(s, cfg, event), cfg)
  {
    hide Current, Prefetching, Retained, AllWithinLag, UsableInOrder, PrefetchedSo, Check, Train, Activate, Judge, Sound;
    if !s.failed {
      match event
      case Judges(usable) => JudgeTraced(s, cfg, usable);
      case Trains(parameters) => TrainTraced(s, cfg, parameters);
      case Activates(digest) => ActivateTraced(s, cfg, digest);
      case _ =>
    }
  }

  lemma JudgeTraced(s: Learner, cfg: Config, usable: bool)
    requires Sound(s, cfg) && Traced(s, cfg)
    ensures Traced(Judge(s, cfg, usable), cfg)
  {
    hide Current, Prefetching, Retained, AllWithinLag, UsableInOrder, PrefetchedSo;
    if s.phase.Judging? && s.trained != [] {
      assert s.trained[|s.trained| - 1].group < s.group;
    }
  }

  lemma TrainTraced(s: Learner, cfg: Config, parameters: nat)
    requires ValidConfig(cfg) && Sound(s, cfg) && Traced(s, cfg)
    ensures Traced(Train(s, cfg, parameters), cfg)
  {
    hide Current, Prefetching, Retained, AllWithinLag, UsableInOrder, PrefetchedSo, Check, Sound, RightAfter;
    var t := Train(s, cfg, parameters);
    if s.phase.Training? && t.phase == Joining {
      OneMoreTrained(s.trained, t.trained[|s.trained|], cfg);
    }
  }

  lemma ActivateTraced(s: Learner, cfg: Config, digest: nat)
    requires Sound(s, cfg) && Traced(s, cfg)
    ensures Traced(Activate(s, cfg, digest), cfg)
  {
    hide Current, Prefetching, Retained, AllWithinLag, UsableInOrder, PrefetchedSo, Pruned;
  }

  lemma {:induction false} RunTraced(cfg: Config, parameters: nat, digest: nat, events: seq<Event>)
    requires ValidConfig(cfg)
    ensures Traced(Run(Started(cfg, parameters, digest), cfg, events), cfg)
  {
    hide Next, Sound;
    if events != [] {
      hide Traced;
      var front := events[..|events| - 1];
      RunTraced(cfg, parameters, digest, front);
      RunSound(cfg, parameters, digest, front);
      NextTraced(Run(Started(cfg, parameters, digest), cfg, front), cfg, events[|events| - 1]);
    } else {
      StartTraced(cfg, parameters, digest);
    }
  }

  lemma StartTraced(cfg: Config, parameters: nat, digest: nat)
    ensures Traced(Started(cfg, parameters, digest), cfg)
  {
  }

  /** A group that was trained on had been prefetched exactly if prefetching is on, it came after the first two updates,
      and its record directly follows the one trained on before; then, and only then, it lags by one. */
  lemma PrefetchedIff(cfg: Config, parameters: nat, digest: nat, events: seq<Event>, k: nat)
    requires ValidConfig(cfg) && k < |Run(Started(cfg, parameters, digest), cfg, events).trained|
    ensures var trained := Run(Started(cfg, parameters, digest), cfg, events).trained;
            && (trained[k].prefetched <==> cfg.prefetch && k >= 2 && trained[k].group == trained[k - 1].group + 1)
            && trained[k].lag == if trained[k].prefetched then 1 else 0
  {
    hide Run, Started, Sound;
    RunTraced(cfg, parameters, digest, events);
    RunSound(cfg, parameters, digest, events);
    var s := Run(Started(cfg, parameters, digest), cfg, events);
    assert s.trained[k].prefetched <==> RightAfter(s.trained[..k], s.trained[k].group, cfg);
    LagOf(s, cfg, k);
  }

  lemma LagOf(s: Learner, cfg: Config, k: nat)
    requires Sound(s, cfg) && k < |s.trained|
    ensures s.trained[k].lag == if s.trained[k].prefetched then 1 else 0
  {
    hide Current, Prefetching, Retained, UsableInOrder, Walked, Under;
    assert WithinLag(s.trained[k], s.published, cfg);
  }

  // ----- what is published

  /** The parameters of the steps taken, and the digests of the activations made. */
  function Steps(initial: Learner, cfg: Config, events: seq<Event>): seq<nat> {
    if events == [] then []
    else
      var (front, last) := (events[..|events| - 1], events[|events| - 1]);
      var before := Steps(initial, cfg, front);
      if last.Trains? && Run(initial, cfg, events).update > Run(initial, cfg, front).update then before + [last.parameters] else before
  }

  function Digests(initial: Learner, cfg: Config, events: seq<Event>): seq<nat> {
    if events == [] then []
    else
      var (front, last) := (events[..|events| - 1], events[|events| - 1]);
      var before := Digests(initial, cfg, front);
      if last.Activates? && |Run(initial, cfg, events).published| > |Run(initial, cfg, front).published|
      then before + [last.digest] else before
  }

  /** Policy v is what the v-th step produced, under version v. */
  predicate PublishedFrom(s: Learner, cfg: Config, parameters: nat, digest: nat, steps: seq<nat>, digests: seq<nat>) {
    && |steps| == s.update && |digests| + 1 == |s.published| <= s.update + 1
    && s.parameters == (if steps == [] then parameters else steps[|steps| - 1])
    && forall v: nat :: v < |s.published| ==>
         && s.published[v].ack == Ack(v, cfg.lineage, if v == 0 then digest else digests[v - 1])
         && s.published[v].parameters == if v == 0 then parameters else steps[v - 1]
  }

  lemma TrainPublishes(s: Learner, cfg: Config, next: nat, parameters: nat, digest: nat, steps: seq<nat>, digests: seq<nat>)
    requires PublishedFrom(s, cfg, parameters, digest, steps, digests)
    ensures var t := Train(s, cfg, next);
            PublishedFrom(t, cfg, parameters, digest, if t.update > s.update then steps + [next] else steps, digests)
  {
    hide Check;
  }

  lemma ActivatePublishes(s: Learner, cfg: Config, next: nat, parameters: nat, digest: nat, steps: seq<nat>, digests: seq<nat>)
    requires PublishedFrom(s, cfg, parameters, digest, steps, digests)
    requires s.phase == Activating ==> |s.published| == s.update
    ensures var t := Activate(s, cfg, next);
            PublishedFrom(t, cfg, parameters, digest, steps, if |t.published| > |s.published| then digests + [next] else digests)
  {
    hide Pruned;
  }

  lemma OthersPublish(s: Learner, cfg: Config, event: Event)
    requires !event.Trains? && !event.Activates?
    ensures var t := Next(s, cfg, event); t.published == s.published && t.update == s.update && t.parameters == s.parameters
  {
  }

  lemma ActivationIsDue(s: Learner, cfg: Config)
    requires Sound(s, cfg)
    ensures s.phase == Activating ==> |s.published| == s.update
  {
    hide Prefetching, Retained, AllWithinLag, UsableInOrder, Walked, Numbered;
  }

  /** Whatever is published, under version v, is exactly what the v-th optimizer step made of the parameters, with the
      digest of its activation; and the learner's parameters are those of its last step. */
  lemma {:induction false} PublishedAreTheSteps(cfg: Config, parameters: nat, digest: nat, events: seq<Event>)
    requires ValidConfig(cfg)
    ensures var initial := Started(cfg, parameters, digest);
            PublishedFrom(Run(initial, cfg, events), cfg, parameters, digest, Steps(initial, cfg, events), Digests(initial, cfg, events))
  {
    hide Sound, Train, Activate, PublishedFrom, Next;
    var initial := Started(cfg, parameters, digest);
    if events == [] {
      StartPublishes(cfg, parameters, digest);
    } else {
      var front, last := events[..|events| - 1], events[|events| - 1];
      var s, steps, digests := Run(initial, cfg, front), Steps(initial, cfg, front), Digests(initial, cfg, front);
      PublishedAreTheSteps(cfg, parameters, digest, front);
      RunSound(cfg, parameters, digest, front);
      ActivationIsDue(s, cfg);
      if last.Trains? {
        TrainIs(s, cfg, last.parameters);
        TrainPublishes(s, cfg, last.parameters, parameters, digest, steps, digests);
      } else if last.Activates? {
        ActivateIs(s, cfg, last.digest);
        ActivatePublishes(s, cfg, last.digest, parameters, digest, steps, digests);
      } else {
        OthersPublish(s, cfg, last);
        SamePublished(s, Next(s, cfg, last), cfg, parameters, digest, steps, digests);
      }
    }
  }

  lemma StartPublishes(cfg: Config, parameters: nat, digest: nat)
    ensures PublishedFrom(Started(cfg, parameters, digest), cfg, parameters, digest, [], [])
  {
  }

  lemma SamePublished(s: Learner, t: Learner, cfg: Config, parameters: nat, digest: nat, steps: seq<nat>, digests: seq<nat>)
    requires PublishedFrom(s, cfg, parameters, digest, steps, digests)
    requires t.published == s.published && t.update == s.update && t.parameters == s.parameters
    ensures PublishedFrom(t, cfg, parameters, digest, steps, digests)
  {
  }

  lemma TrainIs(s: Learner, cfg: Config, parameters: nat)
    ensures Next(s, cfg, Trains(parameters)) == if s.failed then s else Train(s, cfg, parameters)
    ensures Train(s, cfg, parameters).published == s.published
  {
    hide Check;
  }

  lemma ActivateIs(s: Learner, cfg: Config, digest: nat)
    ensures Next(s, cfg, Activates(digest)) == if s.failed then s else Activate(s, cfg, digest)
    ensures Activate(s, cfg, digest).update == s.update
  {
    hide Pruned;
  }

  // ----- what the checks are for

  /** Whatever group is presented to a training step, it is let through exactly if it is whole, all of it was sampled
      under one acknowledged policy, that policy is the learner's or, with prefetch, of the version before and the same
      lineage, and under Token-TIS the one whose snapshot is at hand. */
  lemma LetThroughIff(cfg: Config, expected: Ack, update: nat, responses: seq<Policy>, snapshot: Option<Policy>, generating: Ack)
    ensures Check(cfg, expected, update, responses, snapshot) == Some(generating) <==>
              && |responses| == cfg.size > 0 && expected.version + 1 == update
              && (forall k :: 0 <= k < |responses| ==> responses[k].ack == generating)
              && generating.lineage == expected.lineage
              && (generating == expected || (cfg.prefetch && generating.version + 1 == expected.version))
              && (cfg.tokenTis ==> generating == (if snapshot.Some? then snapshot.value.ack else expected))
  {
    if |responses| == cfg.size > 0 && forall k :: 0 <= k < |responses| ==> responses[k].ack == generating {
      assert responses[0].ack == generating;
    }
  }

  /** A run that has raised does nothing any more. */
  lemma {:induction false} FailedForGood(initial: Learner, cfg: Config, events: seq<Event>, more: seq<Event>)
    ensures Run(initial, cfg, events + [Fails] + more) == Run(initial, cfg, events).(failed := true)
    decreases |more|
  {
    hide Sampled, Obtain, Judge, Train, Join, Activate;
    var failed := events + [Fails];
    assert failed[..|failed| - 1] == events;
    if more == [] {
      assert failed + more == failed;
    } else {
      var front := more[..|more| - 1];
      FailedForGood(initial, cfg, events, front);
      assert (failed + more)[..|failed + more| - 1] == failed + front;
    }
  }
}
