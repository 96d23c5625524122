/** Persistent streams (rollout_manager/coordinator.py, `open_stream` to `close_stream`).

    Any number of submitted groups run concurrently. Each event below is one
    stretch of one task between two awaits, so the reachable states are those
    of every interleaving. An event that is not enabled leaves the state alone. */
module StreamSpec {
  import opened Wrappers
  import opened Resources
  import opened CoordinatorSpec

  datatype StreamConfig = StreamConfig(limits: Config, maxPending: nat, hooked: set<Name>)
  {
    predicate Valid() {
      limits.Valid() && 1 <= maxPending
    }

    /** A group is split into waves by policy, or because its backend has group hooks. */
    predicate InWaves(benchmark: Name) {
      limits.policy == TerminalWaves || (benchmark in limits.backends && limits.backends[benchmark] in hooked)
    }
  }

  /** One plan of the batch being executed. A plan in `Room` holds a worker and waits for capacity. */
  datatype Member = Waiting | Room | Working | Done(outcome: Outcome)

  /** A settled wave: plans low..high, released whole or quarantined whole. */
  datatype Wave = Wave(low: nat, high: nat, released: bool)

  datatype Phase =
    | Queued
    | Choosing
    | Reserving(size: nat)
    | Opening(size: nat)
    | Collecting(members: seq<Member>)
    | Settling(observed: seq<Outcome>, uncertain: bool)
    | Complete
    | Returned

  /** One call of `execute_stream_group`: the plans start..stop of the stream, those before `offset` dealt with. */
  datatype Task = Task(
    start: nat, stop: nat, waves: bool, offset: nat, phase: Phase, results: seq<EpisodeResult>, history: seq<Wave>)

  /** Whoever waits on the stream's condition: a task for its wave's charge, or one of its plans for its own. */
  datatype Waiter = OfWave(g: nat) | OfPlan(g: nat, k: nat)

  /** `plans` lists everything ever submitted. `busy` are the plans holding a worker and `slots` the tasks holding
      a group slot; `held` and `quarantine` are the plans whose charges are reserved and quarantined. `asleep` are
      the waiters that have checked in vain since the condition was last notified. `owners` are the backends that
      backend-stage executors belong to. */
  datatype Stream = Stream(
    plans: seq<Plan>, tasks: seq<Task>, reserved: Ledger, quarantined: Ledger,
    sequence: int, runId: Option<Name>, pending: nat, paused: bool, closed: bool, cancelled: bool,
    slots: set<nat>, busy: set<nat>, held: set<nat>, quarantine: set<nat>,
    asleep: set<Waiter>, owners: map<Executor, Name>)

  function Opened(): Stream {
    Stream([], [], map[], map[], -1, None, 0, false, false, false, {}, {}, {}, {}, {}, map[])
  }

  // ----- ranges of plans

  function Range(low: nat, high: nat): (r: set<nat>)
    ensures forall i: nat :: i in r <==> low <= i < high
    decreases high
  {
    if high <= low then {} else Range(low, high - 1) + {high - 1}
  }

  function CreditRange(ledger: Ledger, plans: seq<Plan>, low: nat, high: nat): Ledger
    requires high <= |plans|
    decreases high
  {
    if high <= low then ledger else Credit(CreditRange(ledger, plans, low, high - 1), plans[high - 1].requirement)
  }

  function DebitRange(ledger: Ledger, plans: seq<Plan>, low: nat, high: nat): Ledger
    requires high <= |plans|
    decreases high
  {
    if high <= low then ledger else Debit(DebitRange(ledger, plans, low, high - 1), plans[high - 1].requirement)
  }

  /** `_wave_fits`: the plans' charges added up fit on top of what is reserved. `fits_capacity` is the same
      with nothing reserved. */
  predicate RangeFits(reserved: Ledger, capacities: Capacities, plans: seq<Plan>, low: nat, high: nat)
    requires high <= |plans|
  {
    var totals := CreditRange(map[], plans, low, high);
    forall a :: a in totals && a.executor in capacities ==>
      Balance(reserved, a) + totals[a] <= capacities[a.executor].Of(a.quantity)
  }

  /** How many plans from `from` on the next wave takes, having already taken `taken`: plans are added while
      the wave is short enough and the sum of its charges fits an empty executor. */
  function WaveSize(config: StreamConfig, plans: seq<Plan>, low: nat, stop: nat, taken: nat): nat
    requires low + taken <= stop <= |plans|
    decreases stop - taken
  {
    if low + taken == stop || taken == config.limits.maxWorkers
      || !RangeFits(map[], config.limits.capacities, plans, low, low + taken + 1)
    then taken
    else WaveSize(config, plans, low, stop, taken + 1)
  }

  // ----- submission

  datatype SubmitError = Unavailable | BadSequence | MixedRun | CreditExhausted | NoBackend | SharedStage | TooLarge

  /** The checks on the group as a whole. */
  function CheckGroup(config: StreamConfig, s: Stream, plans: seq<Plan>, sequence: int): Option<SubmitError> {
    if s.closed || s.paused then Some(Unavailable)
    else if sequence <= s.sequence || plans == []
      || (exists i, j :: 0 <= i < j < |plans| && plans[i].identity == plans[j].identity)
      || (exists i :: 0 <= i < |plans| && plans[i].group != plans[0].group)
    then Some(BadSequence)
    else if (exists i :: 0 <= i < |plans| && plans[i].runId != plans[0].runId)
      || (s.runId.Some? && s.runId.value != plans[0].runId)
    then Some(MixedRun)
    else if s.pending + |plans| > config.maxPending then Some(CreditExhausted)
    else if plans[0].group.benchmark !in config.limits.backends then Some(NoBackend)
    else None
  }

  /** The plan's backend-stage executor belongs to another backend. */
  predicate StageTaken(owners: map<Executor, Name>, backend: Name, requirement: Requirement) {
    && !requirement.episodeScoped && requirement.executor in owners && owners[requirement.executor] != backend
  }

  predicate Acceptable(capacities: Capacities, owners: map<Executor, Name>, backend: Name, requirement: Requirement) {
    !StageTaken(owners, backend, requirement) && Fits(map[], capacities, requirement)
  }

  /** A backend-stage executor belongs to the first backend that a plan for it was submitted to. */
  function Claim(owners: map<Executor, Name>, backend: Name, requirement: Requirement): map<Executor, Name> {
    if requirement.episodeScoped || requirement.executor in owners then owners
    else owners[requirement.executor := backend]
  }

  /** The executors' owners after the first n plans. */
  function Claims(owners: map<Executor, Name>, backend: Name, plans: seq<Plan>, n: nat): map<Executor, Name>
    requires n <= |plans|
  {
    if n == 0 then owners else Claim(Claims(owners, backend, plans, n - 1), backend, plans[n - 1].requirement)
  }

  /** The first plan from n on that cannot be accepted, if any. */
  function FirstRefused(
    capacities: Capacities, owners: map<Executor, Name>, backend: Name, plans: seq<Plan>, n: nat): (first: nat)
    requires n <= |plans|
    ensures n <= first <= |plans|
    ensures forall i :: n <= i < first ==>
              Acceptable(capacities, Claims(owners, backend, plans, i), backend, plans[i].requirement)
    ensures first < |plans| ==>
              !Acceptable(capacities, Claims(owners, backend, plans, first), backend, plans[first].requirement)
    decreases |plans| - n
  {
    if n == |plans| || !Acceptable(capacities, Claims(owners, backend, plans, n), backend, plans[n].requirement) then n
    else FirstRefused(capacities, owners, backend, plans, n + 1)
  }

  function Refused(config: StreamConfig, s: Stream, plans: seq<Plan>): (first: nat)
    requires plans != [] && plans[0].group.benchmark in config.limits.backends
    ensures first <= |plans|
  {
    FirstRefused(config.limits.capacities, s.owners, config.limits.backends[plans[0].group.benchmark], plans, 0)
  }

  /** Then those on its plans, one after the other. */
  function CheckSubmission(config: StreamConfig, s: Stream, plans: seq<Plan>, sequence: int): Option<SubmitError> {
    var error := CheckGroup(config, s, plans, sequence);
    if error != None then error
    else
      var first, backend := Refused(config, s, plans), config.limits.backends[plans[0].group.benchmark];
      if first == |plans| then None
      else if StageTaken(Claims(s.owners, backend, plans, first), backend, plans[first].requirement) then Some(SharedStage)
      else Some(TooLarge)
  }

  /** A refused submission keeps the executors that its plans before the refused one have claimed. */
  function OwnersAfter(config: StreamConfig, s: Stream, plans: seq<Plan>, sequence: int): map<Executor, Name> {
    if CheckGroup(config, s, plans, sequence) != None then s.owners
    else Claims(s.owners, config.limits.backends[plans[0].group.benchmark], plans, Refused(config, s, plans))
  }

  function Submit(config: StreamConfig, s: Stream, plans: seq<Plan>, sequence: int): Stream {
    var owners := OwnersAfter(config, s, plans, sequence);
    if CheckSubmission(config, s, plans, sequence) != None then s.(owners := owners)
    else
      var task := Task(|s.plans|, |s.plans| + |plans|, config.InWaves(plans[0].group.benchmark), 0, Queued, [], []);
      s.(plans := s.plans + plans, tasks := s.tasks + [task],
         sequence := sequence, runId := Some(plans[0].runId), pending := s.pending + |plans|, owners := owners)
  }

  // ----- steps of one task

  function Put(s: Stream, g: nat, task: Task): Stream
    requires g < |s.tasks|
  {
    s.(tasks := s.tasks[g := task])
  }

  function AllWaiting(n: nat): (members: seq<Member>)
    ensures |members| == n && forall k :: 0 <= k < n ==> members[k] == Waiting
  {
    seq(n, _ => Waiting)
  }

  /** Take a group slot. A group without waves executes all its plans as one batch. */
  function Enter(config: StreamConfig, s: Stream, g: nat): Stream
    requires g < |s.tasks|
  {
    var task := s.tasks[g];
    if task.phase != Queued || |s.slots| >= config.limits.maxGroups || task.stop < task.start then s
    else
      var phase := if task.waves then Choosing else Collecting(AllWaiting(task.stop - task.start));
      Put(s, g, task.(phase := phase)).(slots := s.slots + {g})
  }

  function NotAdmittedFrom(plans: seq<Plan>, low: nat, high: nat): (results: seq<EpisodeResult>)
    requires low <= high <= |plans|
    ensures |results| == high - low
    ensures forall k :: 0 <= k < high - low ==> results[k] == NotAdmittedResult(plans[low + k])
  {
    seq(high - low, k requires 0 <= k < high - low => NotAdmittedResult(plans[low + k]))
  }

  /** The head of the wave loop: done, called off, or on to the next wave. */
  function Chosen(config: StreamConfig, plans: seq<Plan>, cancelled: bool, task: Task): Task
    requires task.start + task.offset <= task.stop <= |plans|
  {
    var low := task.start + task.offset;
    if low == task.stop then task.(phase := Complete)
    else if cancelled then
      task.(phase := Complete, results := task.results + NotAdmittedFrom(plans, low, task.stop))
    else task.(phase := Reserving(WaveSize(config, plans, low, task.stop, 0)))
  }

  function Choose(config: StreamConfig, s: Stream, g: nat): Stream
    requires g < |s.tasks|
  {
    var task := s.tasks[g];
    if task.phase != Choosing || !(task.start + task.offset <= task.stop <= |s.plans|) then s
    else
      var next := Chosen(config, s.plans, s.cancelled, task);
      Put(s, g, next).(slots := if next.phase == Complete then s.slots - {g} else s.slots)
  }

  /** Charge the whole wave once it fits; a cancelled stream goes back to the head of the loop. */
  function Reserve(config: StreamConfig, s: Stream, g: nat): Stream
    requires g < |s.tasks|
  {
    var task := s.tasks[g];
    if !task.phase.Reserving? then s
    else
      var low, high := task.start + task.offset, task.start + task.offset + task.phase.size;
      if s.cancelled then Put(s, g, task.(phase := Choosing))
      else if high > |s.plans| || !RangeFits(s.reserved, config.limits.capacities, s.plans, low, high) then s
      else
        Put(s, g, task.(phase := Opening(task.phase.size)))
        .(reserved := CreditRange(s.reserved, s.plans, low, high), held := s.held + Range(low, high))
  }

  const UNRESOLVED := Outcome(Failed, Unknown, false, true, false)

  function Repeat(outcome: Outcome, n: nat): (outcomes: seq<Outcome>)
    ensures |outcomes| == n && forall k :: 0 <= k < n ==> outcomes[k] == outcome
  {
    seq(n, _ => outcome)
  }

  /** The admission hook returns, or fails and with it the wave. */
  function Admitted(s: Stream, g: nat, ok: bool): Stream
    requires g < |s.tasks|
  {
    var task := s.tasks[g];
    if !task.phase.Opening? then s
    else if ok then Put(s, g, task.(phase := Collecting(AllWaiting(task.phase.size))))
    else Put(s, g, task.(phase := Settling(Repeat(UNRESOLVED, task.phase.size), true))).(cancelled := true)
  }

  predicate At(tasks: seq<Task>, g: nat, k: nat, member: Member) {
    && g < |tasks| && tasks[g].phase.Collecting? && k < |tasks[g].phase.members|
    && tasks[g].phase.members[k] == member
  }

  function PutMember(s: Stream, g: nat, k: nat, member: Member): Stream
    requires g < |s.tasks| && s.tasks[g].phase.Collecting? && k < |s.tasks[g].phase.members|
  {
    Put(s, g, s.tasks[g].(phase := Collecting(s.tasks[g].phase.members[k := member])))
  }

  /** The plan's index in the stream. */
  function PlanOf(task: Task, k: nat): nat {
    task.start + task.offset + k
  }

  const NOT_ADMITTED := Outcome(NotAdmitted, NotRequired, false, false, false)

  /** A plan takes a worker. Its wave is already charged; without a wave it still needs its own room. */
  function Start(config: StreamConfig, s: Stream, g: nat, k: nat): Stream {
    if !At(s.tasks, g, k, Waiting) || |s.busy| >= config.limits.maxWorkers then s
    else if !s.tasks[g].waves then PutMember(s, g, k, Room).(busy := s.busy + {PlanOf(s.tasks[g], k)})
    else if s.cancelled then PutMember(s, g, k, Done(NOT_ADMITTED))
    else PutMember(s, g, k, Working).(busy := s.busy + {PlanOf(s.tasks[g], k)})
  }

  /** Charge a plan of a group without waves once it fits. */
  function Grant(config: StreamConfig, s: Stream, g: nat, k: nat): Stream {
    if !At(s.tasks, g, k, Room) || PlanOf(s.tasks[g], k) >= |s.plans| then s
    else
      var i := PlanOf(s.tasks[g], k);
      if s.cancelled then PutMember(s, g, k, Done(NOT_ADMITTED)).(busy := s.busy - {i})
      else if !Fits(s.reserved, config.limits.capacities, s.plans[i].requirement) then s
      else
        PutMember(s, g, k, Working).(reserved := Credit(s.reserved, s.plans[i].requirement), held := s.held + {i})
  }

  /** An episode ends. Any doubt about it stops admission. */
  function Finish(s: Stream, g: nat, k: nat, outcome: Outcome): Stream {
    if !At(s.tasks, g, k, Working) || PlanOf(s.tasks[g], k) >= |s.plans| then s
    else
      var i := PlanOf(s.tasks[g], k);
      var t := PutMember(s, g, k, Done(outcome)).(
        busy := s.busy - {i},
        cancelled := s.cancelled || !outcome.Safe() || outcome.infrastructure || outcome.reviewRequired);
      if s.tasks[g].waves then t
      else if outcome.Safe() then
        t.(reserved := Debit(s.reserved, s.plans[i].requirement), held := s.held - {i})
      else
        t.(quarantined := Credit(s.quarantined, s.plans[i].requirement), quarantine := s.quarantine + {i})
  }

  predicate AllDone(members: seq<Member>) {
    forall k :: 0 <= k < |members| ==> members[k].Done?
  }

  function Outcomes(members: seq<Member>): (outcomes: seq<Outcome>)
    requires AllDone(members)
    ensures |outcomes| == |members|
    ensures forall k :: 0 <= k < |members| ==> outcomes[k] == members[k].outcome
  {
    seq(|members|, k requires 0 <= k < |members| => members[k].outcome)
  }

  function Identified(plans: seq<Plan>, low: nat, outcomes: seq<Outcome>): (results: seq<EpisodeResult>)
    requires low + |outcomes| <= |plans|
    ensures |results| == |outcomes|
    ensures forall k :: 0 <= k < |outcomes| ==>
              results[k].identity == plans[low + k].identity && results[k].outcome == outcomes[k]
  {
    seq(|outcomes|, k requires 0 <= k < |outcomes| => EpisodeResult(plans[low + k].identity, outcomes[k]))
  }

  /** Every episode of the batch has ended: a wave goes on to its closing hook, a group without waves is complete. */
  function Gathered(s: Stream, g: nat, uncertain: bool): Stream
    requires g < |s.tasks|
  {
    var task := s.tasks[g];
    if !task.phase.Collecting? || !AllDone(task.phase.members)
      || task.start + task.offset + |task.phase.members| > |s.plans|
    then s
    else
      var observed := Outcomes(task.phase.members);
      if task.waves then Put(s, g, task.(phase := Settling(observed, uncertain)))
      else
        Put(s, g, task.(phase := Complete, offset := task.offset + |observed|,
                        results := task.results + Identified(s.plans, task.start + task.offset, observed)))
        .(slots := s.slots - {g})
  }

  predicate ProvenSafe(observed: seq<Outcome>) {
    forall k :: 0 <= k < |observed| ==> observed[k].Safe()
  }

  function Doubted(observed: seq<Outcome>): (outcomes: seq<Outcome>)
    ensures |outcomes| == |observed|
    ensures forall k :: 0 <= k < |observed| ==> !outcomes[k].Safe()
  {
    seq(|observed|, k requires 0 <= k < |observed| => observed[k].(cleanup := Unknown, uncertain := true))
  }

  /** Release the wave or quarantine it, and go on with the rest of the group. */
  function Settle(s: Stream, g: nat): Stream
    requires g < |s.tasks|
  {
    var task := s.tasks[g];
    if !task.phase.Settling? || task.start + task.offset + |task.phase.observed| > |s.plans| then s
    else
      var observed := task.phase.observed;
      var low, high := task.start + task.offset, task.start + task.offset + |observed|;
      var safe := ProvenSafe(observed) && !task.phase.uncertain;
      var next := task.(
        phase := Choosing, offset := task.offset + |observed|, history := task.history + [Wave(low, high, safe)],
        results := task.results + Identified(s.plans, low, if safe then observed else Doubted(observed)));
      if safe then
        Put(s, g, next).(reserved := DebitRange(s.reserved, s.plans, low, high), held := s.held - Range(low, high))
      else
        Put(s, g, next).(quarantined := CreditRange(s.quarantined, s.plans, low, high),
                         quarantine := s.quarantine + Range(low, high), cancelled := true)
  }

  /** The results reach the caller and its input credit is returned. */
  function HandBack(s: Stream, g: nat): Stream
    requires g < |s.tasks|
  {
    var task := s.tasks[g];
    if task.phase != Complete || s.pending + task.start < task.stop then s
    else Put(s, g, task.(phase := Returned)).(pending := s.pending + task.start - task.stop)
  }

  predicate AllReturned(s: Stream) {
    forall g :: 0 <= g < |s.tasks| ==> s.tasks[g].phase == Returned
  }

  // ----- schedules

  datatype Event =
    | Submission(plans: seq<Plan>, sequence: int)
    | Entering(g: nat) | LoopHead(g: nat) | Reserved(g: nat) | HookReturned(g: nat, ok: bool)
    | Started(g: nat, k: nat) | Granted(g: nat, k: nat) | Finished(g: nat, k: nat, outcome: Outcome)
    | BatchEnded(g: nat, uncertain: bool) | Settled(g: nat) | Handed(g: nat)
    | Cancellation | Pausing | Resuming | Closing

  /** One check of the condition's predicate: a waiter that has checked in vain sleeps until it is notified. `t` is
      the state if the check succeeds, and `s` if not. */
  function Attempt(s: Stream, waiter: Waiter, t: Stream): Stream {
    if waiter in s.asleep then s else if t == s then s.(asleep := s.asleep + {waiter}) else t
  }

  /** `notify_all` after a step that was taken. */
  function Notified(s: Stream, t: Stream): Stream {
    if t == s then s else t.(asleep := {})
  }

  function Step(config: StreamConfig, s: Stream, event: Event): Stream {
    match event
    case Submission(plans, sequence) => Submit(config, s, plans, sequence)
    case Entering(g) => if g < |s.tasks| then Enter(config, s, g) else s
    case LoopHead(g) => if g < |s.tasks| then Choose(config, s, g) else s
    case Reserved(g) =>
      if g < |s.tasks| && s.tasks[g].phase.Reserving? then Attempt(s, OfWave(g), Reserve(config, s, g)) else s
    case HookReturned(g, ok) => if g < |s.tasks| then Admitted(s, g, ok) else s
    case Started(g, k) => Start(config, s, g, k)
    case Granted(g, k) => if At(s.tasks, g, k, Room) then Attempt(s, OfPlan(g, k), Grant(config, s, g, k)) else s
    case Finished(g, k, outcome) => Notified(s, Finish(s, g, k, outcome))
    case BatchEnded(g, uncertain) => if g < |s.tasks| then Gathered(s, g, uncertain) else s
    case Settled(g) => if g < |s.tasks| then Notified(s, Settle(s, g)) else s
    case Handed(g) => if g < |s.tasks| then HandBack(s, g) else s
    case Cancellation => s.(cancelled := true)
    case Pausing => s.(paused := true, asleep := {})
    case Resuming => if s.closed || s.cancelled then s else s.(paused := false)
    case Closing => if AllReturned(s) then s.(paused := true, closed := true, asleep := {}) else s
  }

  function Execute(config: StreamConfig, events: seq<Event>): Stream {
    if events == [] then Opened() else Step(config, Execute(config, events[..|events| - 1]), events[|events| - 1])
  }
}
