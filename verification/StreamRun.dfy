/** A stream's coordinator on mutable fields, event by event equal to its specification. */
module StreamRun {
  import opened Wrappers
  import opened Resources
  import opened CoordinatorSpec
  import Spec = StreamSpec
  import T = StreamTheorems
  import P = StreamProgress

  type Task = Spec.Task

  class StreamCoordinator {
    const config: Spec.StreamConfig
    var plans: seq<Plan>
    var tasks: seq<Task>
    var reserved: Ledger
    var quarantined: Ledger
    var sequence: int
    var runId: Option<Name>
    var pending: nat
    var paused: bool
    var closed: bool
    var cancelled: bool
    var slots: set<nat>
    var busy: set<nat>
    var asleep: set<Spec.Waiter>
    var owners: map<Executor, Name>
    ghost var held: set<nat>
    ghost var quarantine: set<nat>

    ghost function S(): Spec.Stream
      reads this
    {
      Spec.Stream(plans, tasks, reserved, quarantined, sequence, runId, pending, paused, closed, cancelled,
                  slots, busy, held, quarantine, asleep, owners)
    }

    constructor (config: Spec.StreamConfig)
      ensures this.config == config && S() == Spec.Opened()
    {
      this.config := config;
      plans, tasks, reserved, quarantined := [], [], map[], map[];
      sequence, runId, pending := -1, None, 0;
      paused, closed, cancelled := false, false, false;
      slots, busy, held, quarantine := {}, {}, {}, {};
      asleep, owners := {}, map[];
    }

    method Submit(more: seq<Plan>, number: int) returns (error: Option<Spec.SubmitError>)
      modifies this
      ensures error == Spec.CheckSubmission(config, old(S()), more, number)
      ensures S() == Spec.Submit(config, old(S()), more, number)
    {
      hide Spec.CheckGroup, Spec.Refused, Spec.Claims, Spec.StageTaken, Spec.StreamConfig.InWaves;
      ghost var before := S();
      error := CheckGroup(more, number);
      if error == None {
        error := ClaimStages(more);
        if error == None {
          Append(more, number, before);
        }
      }
    }

    method CheckGroup(more: seq<Plan>, number: int) returns (error: Option<Spec.SubmitError>)
      ensures error == Spec.CheckGroup(config, S(), more, number)
      ensures error == None ==> more != [] && more[0].group.benchmark in config.limits.backends
    {
      if closed || paused {
        return Some(Spec.Unavailable);
      }
      if number <= sequence || more == []
        || (exists i, j :: 0 <= i < j < |more| && more[i].identity == more[j].identity)
        || (exists i :: 0 <= i < |more| && more[i].group != more[0].group)
      {
        return Some(Spec.BadSequence);
      }
      if (exists i :: 0 <= i < |more| && more[i].runId != more[0].runId)
        || (runId.Some? && runId.value != more[0].runId)
      {
        return Some(Spec.MixedRun);
      }
      if pending + |more| > config.maxPending {
        return Some(Spec.CreditExhausted);
      }
      if more[0].group.benchmark !in config.limits.backends {
        return Some(Spec.NoBackend);
      }
      return None;
    }

    /** Check plan by plan; each accepted plan claims its stage's executor at once. */
    method ClaimStages(more: seq<Plan>) returns (error: Option<Spec.SubmitError>)
      requires more != [] && more[0].group.benchmark in config.limits.backends
      modifies this`owners
      ensures var first, backend := Spec.Refused(config, old(S()), more), config.limits.backends[more[0].group.benchmark];
              && owners == Spec.Claims(old(owners), backend, more, first)
              && error == if first == |more| then None
                          else if Spec.StageTaken(owners, backend, more[first].requirement) then Some(Spec.SharedStage)
                          else Some(Spec.TooLarge)
    {
      hide Fits, Spec.StageTaken;
      var backend := config.limits.backends[more[0].group.benchmark];
      for k := 0 to |more|
        invariant owners == Spec.Claims(old(owners), backend, more, k)
        invariant Spec.Refused(config, old(S()), more) ==
                    Spec.FirstRefused(config.limits.capacities, old(owners), backend, more, k)
      {
        if Spec.StageTaken(owners, backend, more[k].requirement) {
          return Some(Spec.SharedStage);
        }
        if !Fits(map[], config.limits.capacities, more[k].requirement) {
          return Some(Spec.TooLarge);
        }
        owners := Spec.Claim(owners, backend, more[k].requirement);
      }
      return None;
    }

    /** The group of an accepted submission. */
    method Append(more: seq<Plan>, number: int, ghost before: Spec.Stream)
      requires more != [] && S() == before.(owners := Spec.OwnersAfter(config, before, more, number))
      requires Spec.CheckSubmission(config, before, more, number) == None
      modifies this`plans, this`tasks, this`sequence, this`runId, this`pending
      ensures S() == Spec.Submit(config, before, more, number)
    {
      hide Spec.CheckSubmission, Spec.OwnersAfter, Spec.StreamConfig.InWaves, Spec.Submit;
      SubmitIs(config, before, more, number);
      var task := Spec.Task(|plans|, |plans| + |more|, config.InWaves(more[0].group.benchmark), 0, Spec.Queued, [], []);
      plans, tasks := plans + more, tasks + [task];
      sequence, runId, pending := number, Some(more[0].runId), pending + |more|;
    }

    method Put(g: nat, task: Task)
      requires g < |tasks|
      modifies this`tasks
      ensures S() == Spec.Put(old(S()), g, task)
    {
      tasks := tasks[g := task];
    }

    /** The longest prefix of the group's remaining plans that is short enough and fits on its own. */
    method SelectWave(low: nat, stop: nat) returns (size: nat)
      requires low <= stop <= |plans|
      ensures size == Spec.WaveSize(config, plans, low, stop, 0)
    {
      size := 0;
      ghost var whole := Spec.WaveSize(config, plans, low, stop, 0);
      while low + size < stop && size != config.limits.maxWorkers
        invariant low + size <= stop && Spec.WaveSize(config, plans, low, stop, size) == whole
      {
        if !Spec.RangeFits(map[], config.limits.capacities, plans, low, low + size + 1) {
          return;
        }
        size := size + 1;
      }
    }

    method Choose(g: nat)
      requires g < |tasks|
      modifies this`tasks, this`slots
      ensures S() == Spec.Choose(config, old(S()), g)
    {
      hide Spec.WaveSize;
      var task := tasks[g];
      var low := task.start + task.offset;
      if task.phase != Spec.Choosing || !(low <= task.stop <= |plans|) {
        return;
      }
      if low == task.stop {
        Put(g, task.(phase := Spec.Complete));
        slots := slots - {g};
      } else if cancelled {
        Put(g, task.(phase := Spec.Complete, results := task.results + Spec.NotAdmittedFrom(plans, low, task.stop)));
        slots := slots - {g};
      } else {
        var size := SelectWave(low, task.stop);
        Put(g, task.(phase := Spec.Reserving(size)));
      }
    }

    method ChargeRange(low: nat, high: nat)
      requires low <= high <= |plans|
      modifies this`reserved, this`held
      ensures reserved == Spec.CreditRange(old(reserved), plans, low, high)
      ensures held == old(held) + Spec.Range(low, high)
    {
      for i := low to high
        invariant reserved == Spec.CreditRange(old(reserved), plans, low, i) && held == old(held) + Spec.Range(low, i)
      {
        reserved, held := Credit(reserved, plans[i].requirement), held + {i};
      }
    }

    method ReleaseRange(low: nat, high: nat)
      requires low <= high <= |plans|
      modifies this`reserved, this`held
      ensures reserved == Spec.DebitRange(old(reserved), plans, low, high)
      ensures held == old(held) - Spec.Range(low, high)
    {
      for i := low to high
        invariant reserved == Spec.DebitRange(old(reserved), plans, low, i) && held == old(held) - Spec.Range(low, i)
      {
        reserved, held := Debit(reserved, plans[i].requirement), held - {i};
      }
    }

    method QuarantineRange(low: nat, high: nat)
      requires low <= high <= |plans|
      modifies this`quarantined, this`quarantine
      ensures quarantined == Spec.CreditRange(old(quarantined), plans, low, high)
      ensures quarantine == old(quarantine) + Spec.Range(low, high)
    {
      for i := low to high
        invariant quarantined == Spec.CreditRange(old(quarantined), plans, low, i)
        invariant quarantine == old(quarantine) + Spec.Range(low, i)
      {
        quarantined, quarantine := Credit(quarantined, plans[i].requirement), quarantine + {i};
      }
    }

    /** One check of whether the wave fits, or the stream is cancelled. */
    method Reserve(g: nat) returns (moved: bool)
      requires g < |tasks| && tasks[g].phase.Reserving?
      modifies this`tasks, this`reserved, this`held
      ensures S() == Spec.Reserve(config, old(S()), g)
      ensures moved <==> S() != old(S())
    {
      hide Spec.RangeFits, Spec.CreditRange, Spec.Range;
      var task := tasks[g];
      var low, high := task.start + task.offset, task.start + task.offset + task.phase.size;
      moved := true;
      if cancelled {
        Put(g, task.(phase := Spec.Choosing));
        assert S().tasks[g].phase.Choosing?;
      } else if high <= |plans| && Spec.RangeFits(reserved, config.limits.capacities, plans, low, high) {
        ChargeRange(low, high);
        Put(g, task.(phase := Spec.Opening(task.phase.size)));
        assert S().tasks[g].phase.Opening?;
      } else {
        moved := false;
      }
    }

    method AttemptReserve(g: nat)
      requires g < |tasks| && tasks[g].phase.Reserving?
      modifies this`tasks, this`reserved, this`held, this`asleep
      ensures S() == Spec.Attempt(old(S()), Spec.OfWave(g), Spec.Reserve(config, old(S()), g))
    {
      hide Spec.Reserve;
      if Spec.OfWave(g) !in asleep {
        var moved := Reserve(g);
        if !moved {
          asleep := asleep + {Spec.OfWave(g)};
        }
      }
    }

    method ProvenSafe(observed: seq<Outcome>) returns (safe: bool)
      ensures safe == Spec.ProvenSafe(observed)
    {
      for k := 0 to |observed|
        invariant forall j :: 0 <= j < k ==> observed[j].Safe()
      {
        if !observed[k].Safe() {
          return false;
        }
      }
      return true;
    }

    /** A wave whose cleanup is proven gives its charges back. */
    method Release(g: nat)
      requires g < |tasks| && tasks[g].phase.Settling?
      requires tasks[g].start + tasks[g].offset + |tasks[g].phase.observed| <= |plans|
      requires Spec.ProvenSafe(tasks[g].phase.observed) && !tasks[g].phase.uncertain
      modifies this`tasks, this`reserved, this`held
      ensures S() == Spec.Settle(old(S()), g)
    {
      hide Spec.CreditRange, Spec.DebitRange, Spec.ProvenSafe, Spec.Range, Spec.Identified, Spec.Doubted;
      var task := tasks[g];
      var observed, low := task.phase.observed, task.start + task.offset;
      ReleaseRange(low, low + |observed|);
      Put(g, task.(phase := Spec.Choosing, offset := task.offset + |observed|,
                   history := task.history + [Spec.Wave(low, low + |observed|, true)],
                   results := task.results + Spec.Identified(plans, low, observed)));
    }

    /** Any other wave keeps its charges, in quarantine, and the stream is cancelled. */
    method Withhold(g: nat)
      requires g < |tasks| && tasks[g].phase.Settling?
      requires tasks[g].start + tasks[g].offset + |tasks[g].phase.observed| <= |plans|
      requires !Spec.ProvenSafe(tasks[g].phase.observed) || tasks[g].phase.uncertain
      modifies this`tasks, this`quarantined, this`quarantine, this`cancelled
      ensures S() == Spec.Settle(old(S()), g)
    {
      hide Spec.CreditRange, Spec.DebitRange, Spec.ProvenSafe, Spec.Range, Spec.Identified, Spec.Doubted;
      var task := tasks[g];
      var observed, low := Spec.Doubted(task.phase.observed), task.start + task.offset;
      QuarantineRange(low, low + |observed|);
      cancelled := true;
      Put(g, task.(phase := Spec.Choosing, offset := task.offset + |observed|,
                   history := task.history + [Spec.Wave(low, low + |observed|, false)],
                   results := task.results + Spec.Identified(plans, low, observed)));
    }

    method Settle(g: nat)
      requires g < |tasks|
      modifies this`tasks, this`reserved, this`held, this`quarantined, this`quarantine, this`cancelled
      ensures S() == Spec.Settle(old(S()), g)
    {
      hide Spec.ProvenSafe, Spec.Identified, Spec.Doubted, Spec.DebitRange, Spec.CreditRange, Spec.Range;
      var task := tasks[g];
      if task.phase.Settling? && task.start + task.offset + |task.phase.observed| <= |plans| {
        var safe := ProvenSafe(task.phase.observed);
        if safe && !task.phase.uncertain {
          Release(g);
        } else {
          Withhold(g);
        }
      }
    }

    method SettleAndNotify(g: nat)
      requires g < |tasks|
      modifies this`tasks, this`reserved, this`held, this`quarantined, this`quarantine, this`cancelled, this`asleep
      ensures S() == Spec.Notified(old(S()), Spec.Settle(old(S()), g))
    {
      hide Spec.Settle;
      ghost var before := S();
      if tasks[g].phase.Settling? && tasks[g].start + tasks[g].offset + |tasks[g].phase.observed| <= |plans| {
        P.SettleMoves(before, g);
        Settle(g);
        asleep := {};
      } else {
        T.SettleIdle(before, g);
      }
    }

    method Enter(g: nat)
      requires g < |tasks|
      modifies this`tasks, this`slots
      ensures S() == Spec.Enter(config, old(S()), g)
    {
      var task := tasks[g];
      if task.phase == Spec.Queued && |slots| < config.limits.maxGroups && task.start <= task.stop {
        var phase := if task.waves then Spec.Choosing else Spec.Collecting(Spec.AllWaiting(task.stop - task.start));
        Put(g, task.(phase := phase));
        slots := slots + {g};
      }
    }

    method HookReturned(g: nat, ok: bool)
      requires g < |tasks|
      modifies this`tasks, this`cancelled
      ensures S() == Spec.Admitted(old(S()), g, ok)
    {
      var task := tasks[g];
      if task.phase.Opening? {
        if ok {
          Put(g, task.(phase := Spec.Collecting(Spec.AllWaiting(task.phase.size))));
        } else {
          Put(g, task.(phase := Spec.Settling(Spec.Repeat(Spec.UNRESOLVED, task.phase.size), true)));
          cancelled := true;
        }
      }
    }

    method PutMember(g: nat, k: nat, member: Spec.Member)
      requires g < |tasks| && tasks[g].phase.Collecting? && k < |tasks[g].phase.members|
      modifies this`tasks
      ensures S() == Spec.PutMember(old(S()), g, k, member)
    {
      Put(g, tasks[g].(phase := Spec.Collecting(tasks[g].phase.members[k := member])));
    }

    method Start(g: nat, k: nat)
      modifies this`tasks, this`busy
      ensures S() == Spec.Start(config, old(S()), g, k)
    {
      if Spec.At(tasks, g, k, Spec.Waiting) && |busy| < config.limits.maxWorkers {
        var i := Spec.PlanOf(tasks[g], k);
        if !tasks[g].waves {
          PutMember(g, k, Spec.Room);
          busy := busy + {i};
        } else if cancelled {
          PutMember(g, k, Spec.Done(Spec.NOT_ADMITTED));
        } else {
          PutMember(g, k, Spec.Working);
          busy := busy + {i};
        }
      }
    }

    /** One check of whether the plan fits, or the stream is cancelled. */
    method Grant(g: nat, k: nat) returns (moved: bool)
      requires Spec.At(tasks, g, k, Spec.Room)
      modifies this`tasks, this`busy, this`reserved, this`held
      ensures S() == Spec.Grant(config, old(S()), g, k)
      ensures moved <==> S() != old(S())
    {
      hide Fits, Credit;
      var i := Spec.PlanOf(tasks[g], k);
      moved := true;
      if i < |plans| && cancelled {
        PutMember(g, k, Spec.Done(Spec.NOT_ADMITTED));
        busy := busy - {i};
        assert S().tasks[g].phase.members[k].Done?;
      } else if i < |plans| && Fits(reserved, config.limits.capacities, plans[i].requirement) {
        PutMember(g, k, Spec.Working);
        reserved, held := Credit(reserved, plans[i].requirement), held + {i};
        assert S().tasks[g].phase.members[k].Working?;
      } else {
        moved := false;
      }
    }

    method AttemptGrant(g: nat, k: nat)
      requires Spec.At(tasks, g, k, Spec.Room)
      modifies this`tasks, this`busy, this`reserved, this`held, this`asleep
      ensures S() == Spec.Attempt(old(S()), Spec.OfPlan(g, k), Spec.Grant(config, old(S()), g, k))
    {
      hide Spec.Grant;
      if Spec.OfPlan(g, k) !in asleep {
        var moved := Grant(g, k);
        if !moved {
          asleep := asleep + {Spec.OfPlan(g, k)};
        }
      }
    }

    /** An episode of a wave leaves its charge to the wave. */
    method FinishInWave(g: nat, k: nat, outcome: Outcome)
      requires Spec.At(tasks, g, k, Spec.Working) && Spec.PlanOf(tasks[g], k) < |plans| && tasks[g].waves
      modifies this`tasks, this`busy, this`cancelled
      ensures S() == Spec.Finish(old(S()), g, k, outcome)
    {
      hide Credit, Debit, Spec.PutMember, Outcome.Safe;
      var i := Spec.PlanOf(tasks[g], k);
      PutMember(g, k, Spec.Done(outcome));
      busy := busy - {i};
      cancelled := cancelled || !outcome.Safe() || outcome.infrastructure || outcome.reviewRequired;
    }

    /** Any other episode settles its own: with proof of cleanup it is given back. */
    method FinishProven(g: nat, k: nat, outcome: Outcome)
      requires Spec.At(tasks, g, k, Spec.Working) && Spec.PlanOf(tasks[g], k) < |plans| && !tasks[g].waves
      requires outcome.Safe()
      modifies this`tasks, this`busy, this`cancelled, this`reserved, this`held
      ensures S() == Spec.Finish(old(S()), g, k, outcome)
    {
      hide Credit, Debit, Spec.PutMember, Outcome.Safe;
      var i := Spec.PlanOf(tasks[g], k);
      PutMember(g, k, Spec.Done(outcome));
      busy := busy - {i};
      reserved, held := Debit(reserved, plans[i].requirement), held - {i};
      cancelled := cancelled || outcome.infrastructure || outcome.reviewRequired;
    }

    /** Without proof it is quarantined, and the stream is cancelled. */
    method FinishUnproven(g: nat, k: nat, outcome: Outcome)
      requires Spec.At(tasks, g, k, Spec.Working) && Spec.PlanOf(tasks[g], k) < |plans| && !tasks[g].waves
      requires !outcome.Safe()
      modifies this`tasks, this`busy, this`cancelled, this`quarantined, this`quarantine
      ensures S() == Spec.Finish(old(S()), g, k, outcome)
    {
      hide Credit, Debit, Spec.PutMember, Outcome.Safe;
      var i := Spec.PlanOf(tasks[g], k);
      PutMember(g, k, Spec.Done(outcome));
      busy := busy - {i};
      quarantined, quarantine := Credit(quarantined, plans[i].requirement), quarantine + {i};
      cancelled := true;
    }

    method Finish(g: nat, k: nat, outcome: Outcome)
      modifies this`tasks, this`busy, this`cancelled, this`reserved, this`held, this`quarantined, this`quarantine
      ensures S() == Spec.Finish(old(S()), g, k, outcome)
    {
      hide Credit, Debit, Spec.PutMember, Outcome.Safe;
      if Spec.At(tasks, g, k, Spec.Working) && Spec.PlanOf(tasks[g], k) < |plans| {
        if tasks[g].waves {
          FinishInWave(g, k, outcome);
        } else if outcome.Safe() {
          FinishProven(g, k, outcome);
        } else {
          FinishUnproven(g, k, outcome);
        }
      }
    }

    method FinishAndNotify(g: nat, k: nat, outcome: Outcome)
      modifies this`tasks, this`busy, this`cancelled, this`reserved, this`held, this`quarantined, this`quarantine, this`asleep
      ensures S() == Spec.Notified(old(S()), Spec.Finish(old(S()), g, k, outcome))
    {
      hide Spec.Finish, Outcome.Safe;
      ghost var before := S();
      if Spec.At(tasks, g, k, Spec.Working) && Spec.PlanOf(tasks[g], k) < |plans| {
        P.FinishMoves(before, g, k, outcome);
        Finish(g, k, outcome);
        asleep := {};
      } else {
        T.FinishIdle(before, g, k, outcome);
      }
    }

    method Gathered(g: nat, uncertain: bool)
      requires g < |tasks|
      modifies this`tasks, this`slots
      ensures S() == Spec.Gathered(old(S()), g, uncertain)
    {
      hide Spec.Identified, Spec.Outcomes;
      var task := tasks[g];
      if task.phase.Collecting? && Spec.AllDone(task.phase.members)
        && task.start + task.offset + |task.phase.members| <= |plans|
      {
        var observed := Spec.Outcomes(task.phase.members);
        if task.waves {
          Put(g, task.(phase := Spec.Settling(observed, uncertain)));
        } else {
          Put(g, task.(phase := Spec.Complete, offset := task.offset + |observed|,
                       results := task.results + Spec.Identified(plans, task.start + task.offset, observed)));
          slots := slots - {g};
        }
      }
    }

    method HandBack(g: nat)
      requires g < |tasks|
      modifies this`tasks, this`pending
      ensures S() == Spec.HandBack(old(S()), g)
    {
      var task := tasks[g];
      if task.phase == Spec.Complete && task.stop <= pending + task.start {
        Put(g, task.(phase := Spec.Returned));
        pending := pending + task.start - task.stop;
      }
    }

    /** One task moves on. */
    method OnTask(event: Spec.Event)
      requires event.Entering? || event.LoopHead? || event.Reserved? || event.HookReturned? || event.BatchEnded?
        || event.Settled? || event.Handed?
      modifies this
      ensures S() == Spec.Step(config, old(S()), event)
    {
      hide Spec.Enter, Spec.Choose, Spec.Reserve, Spec.Admitted, Spec.Gathered, Spec.Settle, Spec.HandBack;
      hide Spec.Attempt, Spec.Notified;
      if event.g >= |tasks| {
        return;
      }
      match event
      case Entering(g) => Enter(g);
      case LoopHead(g) => Choose(g);
      case Reserved(g) => if tasks[g].phase.Reserving? { AttemptReserve(g); }
      case HookReturned(g, ok) => HookReturned(g, ok);
      case BatchEnded(g, uncertain) => Gathered(g, uncertain);
      case Settled(g) => SettleAndNotify(g);
      case Handed(g) => HandBack(g);
    }

    /** Closing takes effect once every group has been handed back. */
    method Close()
      modifies this`paused, this`closed, this`asleep
      ensures S() == Spec.Step(config, old(S()), Spec.Closing)
    {
      var all := forall g :: 0 <= g < |tasks| ==> tasks[g].phase == Spec.Returned;
      if all {
        paused, closed, asleep := true, true, {};
      }
    }

    method Resume()
      modifies this`paused
      ensures S() == Spec.Step(config, old(S()), Spec.Resuming)
    {
      if !closed && !cancelled {
        paused := false;
      }
    }

    method Cancel()
      modifies this`cancelled
      ensures S() == Spec.Step(config, old(S()), Spec.Cancellation)
    {
      cancelled := true;
    }

    method Pause()
      modifies this`paused, this`asleep
      ensures S() == Spec.Step(config, old(S()), Spec.Pausing)
    {
      paused, asleep := true, {};
    }

    /** The caller pauses, resumes, cancels or closes the stream. */
    method OnStream(event: Spec.Event)
      requires event.Cancellation? || event.Pausing? || event.Resuming? || event.Closing?
      modifies this`paused, this`closed, this`cancelled, this`asleep
      ensures S() == Spec.Step(config, old(S()), event)
    {
      hide Spec.Step;
      match event
      case Cancellation => Cancel();
      case Pausing => Pause();
      case Resuming => Resume();
      case Closing => Close();
    }

    method Perform(event: Spec.Event)
      modifies this
      ensures S() == Spec.Step(config, old(S()), event)
    {
      hide Spec.Submit, Spec.Start, Spec.Grant, Spec.Finish, Spec.Attempt, Spec.Notified;
      hide Spec.Enter, Spec.Choose, Spec.Reserve, Spec.Admitted, Spec.Gathered, Spec.Settle, Spec.HandBack;
      if event.Submission? {
        var error := Submit(event.plans, event.sequence);
      } else if event.Started? {
        Start(event.g, event.k);
      } else if event.Granted? {
        if Spec.At(tasks, event.g, event.k, Spec.Room) {
          AttemptGrant(event.g, event.k);
        }
      } else if event.Finished? {
        FinishAndNotify(event.g, event.k, event.outcome);
      } else if event.Cancellation? || event.Pausing? || event.Resuming? || event.Closing? {
        OnStream(event);
      } else {
        OnTask(event);
      }
    }
  }

  lemma SubmitIs(config: Spec.StreamConfig, s: Spec.Stream, more: seq<Plan>, number: int)
    requires more != [] && Spec.CheckSubmission(config, s, more, number) == None
    ensures var task := Spec.Task(
              |s.plans|, |s.plans| + |more|, config.InWaves(more[0].group.benchmark), 0, Spec.Queued, [], []);
            Spec.Submit(config, s, more, number) ==
              s.(plans := s.plans + more, tasks := s.tasks + [task], sequence := number, runId := Some(more[0].runId),
                 pending := s.pending + |more|, owners := Spec.OwnersAfter(config, s, more, number))
  {
    hide Spec.CheckSubmission, Spec.OwnersAfter, Spec.StreamConfig.InWaves;
  }

  /** Any interleaving of any groups: the coordinator ends where the specification does, with every invariant. */
  method Replay(config: Spec.StreamConfig, events: seq<Spec.Event>) returns (coordinator: StreamCoordinator)
    requires config.Valid() && T.GoodEvents(events)
    ensures fresh(coordinator) && coordinator.config == config
    ensures coordinator.S() == Spec.Execute(config, events) && T.Sound(config, coordinator.S())
  {
    hide T.Sound, Spec.Step, T.GoodEvent;
    coordinator := new StreamCoordinator(config);
    assert events[..0] == [];
    for k := 0 to |events|
      invariant fresh(coordinator) && coordinator.config == config
      invariant coordinator.S() == Spec.Execute(config, events[..k])
    {
      assert events[..k + 1][..k] == events[..k];
      coordinator.Perform(events[k]);
    }
    assert events[..|events|] == events;
    T.ExecuteSound(config, events);
  }
}
