/** What every interleaving of a stream's groups keeps. */
module StreamTheorems {
  import opened Basics
  import opened Wrappers
  import opened Resources
  import opened CoordinatorSpec
  import opened StreamSpec
  import opened StreamCharges

  // ----- one task, apart from the charges

  /** Settled waves follow one another without gaps from `low` to `high`; each is short enough and fits alone. */
  ghost predicate Split(config: StreamConfig, plans: seq<Plan>, history: seq<Wave>, low: nat, high: nat) {
    if history == [] then low == high
    else
      var last := history[|history| - 1];
      && Split(config, plans, history[..|history| - 1], low, last.low)
      && GoodWave(config, plans, last.low, last.high) && last.high == high
  }

  ghost predicate GoodWave(config: StreamConfig, plans: seq<Plan>, low: nat, high: nat) {
    && low < high <= |plans| && high - low <= config.limits.maxWorkers
    && RangeFits(map[], config.limits.capacities, plans, low, high)
  }

  ghost predicate IdentifiedBy(plans: seq<Plan>, start: nat, results: seq<EpisodeResult>) {
    start + |results| <= |plans| && forall k :: 0 <= k < |results| ==> results[k].identity == plans[start + k].identity
  }

  /** The results from the offset on, if any, are those of plans never admitted because the stream was cancelled. */
  ghost predicate CalledOff(plans: seq<Plan>, start: nat, offset: nat, results: seq<EpisodeResult>, cancelled: bool) {
    && start + |results| <= |plans| && offset <= |results| && (cancelled || offset == |results|)
    && forall k :: offset <= k < |results| ==> results[k] == NotAdmittedResult(plans[start + k])
  }

  /** How many plans from the offset on the task is dealing with. */
  function BatchSize(task: Task): nat {
    match task.phase
    case Reserving(size) => size
    case Opening(size) => size
    case Collecting(members) => |members|
    case Settling(observed, _) => |observed|
    case _ => 0
  }

  predicate Over(task: Task) {
    task.phase == Complete || task.phase == Returned
  }

  ghost predicate Shape(config: StreamConfig, plans: seq<Plan>, cancelled: bool, task: Task) {
    && task.start < task.stop <= |plans| && task.start + task.offset + BatchSize(task) <= task.stop
    && IdentifiedBy(plans, task.start, task.results)
    && |task.results| == (if Over(task) then task.stop - task.start else task.offset)
    && (if task.waves then
          && Split(config, plans, task.history, task.start, task.start + task.offset)
          && (BatchSize(task) > 0 ==>
                GoodWave(config, plans, task.start + task.offset, task.start + task.offset + BatchSize(task)))
          && (Over(task) ==> CalledOff(plans, task.start, task.offset, task.results, cancelled))
        else
          && task.history == []
          && (if Over(task) then task.offset == task.stop - task.start else task.offset == 0))
    && match task.phase
       case Queued => task.offset == 0
       case Collecting(members) =>
         && |members| > 0
         && (task.waves ==> forall k :: 0 <= k < |members| ==> !members[k].Room?)
         && (!task.waves ==> |members| == task.stop - task.start)
       case Choosing => task.waves
       case Reserving(size) => task.waves && size > 0
       case Opening(size) => task.waves && size > 0
       case Settling(observed, _) => task.waves && |observed| > 0
       case _ => true
  }

  // ----- one task's charges

  datatype Stage = Fresh | Charged | Past

  /** Where plan i of the task stands with its charge. */
  function StageOf(task: Task, i: nat): Stage
    requires task.start <= i < task.stop
  {
    var k := i - task.start;
    if task.waves then
      if k < task.offset then Past
      else if k < task.offset + BatchSize(task) && !task.phase.Reserving? then Charged
      else if Over(task) then Past
      else Fresh
    else
      match task.phase
      case Collecting(members) =>
        if k >= |members| then Fresh
        else (match members[k] case Working => Charged case Done(_) => Past case _ => Fresh)
      case Queued => Fresh
      case _ => Past
  }

  /** Plan i of the task holds a worker. */
  predicate HasWorker(task: Task, i: nat) {
    && task.phase.Collecting? && task.start + task.offset <= i < task.start + task.offset + |task.phase.members|
    && (task.phase.members[i - task.start - task.offset].Working? || task.phase.members[i - task.start - task.offset].Room?)
  }

  /** The outcome plan i has ended with, once its charge has been settled. */
  function SettledOutcome(task: Task, i: nat): Option<Outcome> {
    if task.start <= i < task.start + |task.results| then Some(task.results[i - task.start].outcome)
    else if !task.waves && task.phase.Collecting? && task.start + task.offset <= i < task.start + task.offset + |task.phase.members|
      && task.phase.members[i - task.start - task.offset].Done?
    then Some(task.phase.members[i - task.start - task.offset].outcome)
    else None
  }

  /** A plan's charge is reserved while it is charged; afterwards exactly the plans whose outcome leaves their
      cleanup unproven stay reserved, and they are quarantined. */
  ghost predicate Marked(task: Task, held: set<nat>, quarantine: set<nat>, busy: set<nat>, i: nat)
    requires task.start <= i < task.stop
  {
    && (match StageOf(task, i)
        case Fresh => i !in held && i !in quarantine
        case Charged => i in held && i !in quarantine
        case Past => i in held <==> i in quarantine)
    && (i in busy <==> HasWorker(task, i))
    && (SettledOutcome(task, i).Some? ==> (SettledOutcome(task, i).value.Safe() <==> i !in quarantine))
  }

  ghost predicate Marks(task: Task, held: set<nat>, quarantine: set<nat>, busy: set<nat>) {
    forall i: nat :: task.start <= i < task.stop ==> Marked(task, held, quarantine, busy, i)
  }

  /** Each settled wave is released whole or quarantined whole. */
  ghost predicate WholeWaves(history: seq<Wave>, held: set<nat>, quarantine: set<nat>) {
    forall w, i: nat :: 0 <= w < |history| && history[w].low <= i < history[w].high ==>
      if history[w].released then i !in held else i in quarantine
  }

  ghost predicate HistoryBelow(history: seq<Wave>, low: nat, high: nat) {
    forall w :: 0 <= w < |history| ==> low <= history[w].low && history[w].high <= high
  }

  ghost predicate TaskOk(config: StreamConfig, s: Stream, task: Task) {
    && Shape(config, s.plans, s.cancelled, task)
    && Marks(task, s.held, s.quarantine, s.busy)
    && HistoryBelow(task.history, task.start, task.start + task.offset)
    && WholeWaves(task.history, s.held, s.quarantine)
  }

  // ----- the whole stream

  ghost predicate Apart(tasks: seq<Task>) {
    forall g, h :: 0 <= g < h < |tasks| ==> tasks[g].stop <= tasks[h].start
  }

  ghost predicate Owned(tasks: seq<Task>, i: nat) {
    exists g :: 0 <= g < |tasks| && tasks[g].start <= i < tasks[g].stop
  }

  function Outstanding(tasks: seq<Task>): nat {
    if tasks == [] then 0
    else
      var last := tasks[|tasks| - 1];
      Outstanding(tasks[..|tasks| - 1]) + if last.phase == Returned || last.stop < last.start then 0 else last.stop - last.start
  }

  ghost predicate Slots(tasks: seq<Task>, slots: set<nat>) {
    forall g: nat :: g in slots <==> g < |tasks| && tasks[g].phase != Queued && !Over(tasks[g])
  }

  ghost predicate Bounds(config: StreamConfig, s: Stream) {
    && |s.busy| <= config.limits.maxWorkers && |s.slots| <= config.limits.maxGroups
    && s.pending == Outstanding(s.tasks) <= config.maxPending
    && Slots(s.tasks, s.slots)
    && forall i :: i in s.busy ==> i < |s.plans|
  }

  ghost predicate Books(config: StreamConfig, s: Stream) {
    && AllNonNegative(Requirements(s.plans))
    && (forall i :: 0 <= i < |s.plans| ==> Fits(map[], config.limits.capacities, s.plans[i].requirement))
    && Balanced(Requirements(s.plans), config.limits.capacities, s.reserved, s.held, s.quarantined, s.quarantine)
  }

  ghost predicate Owners(s: Stream) {
    && Apart(s.tasks)
    && (forall g :: 0 <= g < |s.tasks| ==> s.tasks[g].stop <= |s.plans|)
    && (forall i: nat :: i < |s.plans| ==> Owned(s.tasks, i))
  }

  ghost predicate Sound(config: StreamConfig, s: Stream) {
    && config.Valid() && Books(config, s) && Bounds(config, s) && Owners(s)
    && (forall g :: 0 <= g < |s.tasks| ==> TaskOk(config, s, s.tasks[g]))
    && (s.quarantine != {} ==> s.cancelled)
  }

  // ----- framing

  /** A step that leaves this task's plans alone leaves the task in order. */
  lemma OthersKeep(config: StreamConfig, s: Stream, t: Stream, task: Task)
    requires TaskOk(config, s, task) && t.plans == s.plans && (s.cancelled ==> t.cancelled)
    requires forall i: nat :: task.start <= i < task.stop ==>
               (i in s.held <==> i in t.held) && (i in s.quarantine <==> i in t.quarantine) && (i in s.busy <==> i in t.busy)
    ensures TaskOk(config, t, task)
  {
    hide Split, GoodWave, StageOf, HasWorker, SettledOutcome, IdentifiedBy;
    forall i: nat | task.start <= i < task.stop ensures Marked(task, t.held, t.quarantine, t.busy, i) {
      assert Marked(task, s.held, s.quarantine, s.busy, i);
    }
  }

  lemma OwnersKeep(s: Stream, t: Stream, g: nat)
    requires Owners(s) && g < |s.tasks| && |t.tasks| == |s.tasks| && t.plans == s.plans
    requires t.tasks == s.tasks[g := t.tasks[g]]
    requires t.tasks[g].start == s.tasks[g].start && t.tasks[g].stop == s.tasks[g].stop
    ensures Owners(t)
  {
    forall i: nat | i < |t.plans| ensures Owned(t.tasks, i) {
      assert Owned(s.tasks, i);
      var h :| 0 <= h < |s.tasks| && s.tasks[h].start <= i < s.tasks[h].stop;
      assert t.tasks[h].start <= i < t.tasks[h].stop;
    }
  }

  /** Outside the plans of one task, two states agree about charges and workers. */
  ghost predicate SameOutside(s: Stream, t: Stream, task: Task) {
    forall i: nat :: !(task.start <= i < task.stop) ==>
      (i in s.held <==> i in t.held) && (i in s.quarantine <==> i in t.quarantine) && (i in s.busy <==> i in t.busy)
  }

  lemma OtherOk(config: StreamConfig, s: Stream, t: Stream, g: nat, h: nat)
    requires Apart(s.tasks) && g < |s.tasks| && h < |s.tasks| && g != h
    requires TaskOk(config, s, s.tasks[h]) && t.plans == s.plans && (s.cancelled ==> t.cancelled)
    requires SameOutside(s, t, s.tasks[g])
    ensures TaskOk(config, t, s.tasks[h])
  {
    hide TaskOk;
    assert if g < h then s.tasks[g].stop <= s.tasks[h].start else s.tasks[h].stop <= s.tasks[g].start;
    OthersKeep(config, s, t, s.tasks[h]);
  }

  /** What a step of task g must show for the stream to stay sound. */
  lemma TaskStepSound(config: StreamConfig, s: Stream, t: Stream, g: nat)
    requires Sound(config, s) && g < |s.tasks| && |t.tasks| == |s.tasks|
    requires t.plans == s.plans && (s.cancelled ==> t.cancelled) && (t.quarantine != {} ==> t.cancelled)
    requires t.tasks == s.tasks[g := t.tasks[g]]
    requires t.tasks[g].start == s.tasks[g].start && t.tasks[g].stop == s.tasks[g].stop
    requires SameOutside(s, t, s.tasks[g])
    requires Books(config, t) && Bounds(config, t) && TaskOk(config, t, t.tasks[g])
    ensures Sound(config, t)
  {
    OwnersKeep(s, t, g);
    hide Books, Bounds, TaskOk, SameOutside;
    forall h | 0 <= h < |t.tasks| ensures TaskOk(config, t, t.tasks[h]) {
      if h != g {
        OtherOk(config, s, t, g, h);
      }
    }
  }

  // ----- bounds

  lemma {:induction false} OutstandingSame(tasks: seq<Task>, g: nat, task: Task)
    requires g < |tasks| && task.start == tasks[g].start && task.stop == tasks[g].stop
    requires task.phase == Returned <==> tasks[g].phase == Returned
    ensures Outstanding(tasks[g := task]) == Outstanding(tasks)
  {
    var front, next := tasks[..|tasks| - 1], tasks[g := task];
    if g < |tasks| - 1 {
      OutstandingSame(front, g, task);
      assert next[..|tasks| - 1] == front[g := task];
    } else {
      assert next[..|tasks| - 1] == front;
    }
  }

  lemma {:induction false} OutstandingReturned(tasks: seq<Task>, g: nat, task: Task)
    requires g < |tasks| && task.start == tasks[g].start && task.stop == tasks[g].stop && task.start <= task.stop
    requires task.phase == Returned && tasks[g].phase != Returned
    ensures Outstanding(tasks[g := task]) == Outstanding(tasks) - (task.stop - task.start)
  {
    var front, next := tasks[..|tasks| - 1], tasks[g := task];
    if g < |tasks| - 1 {
      OutstandingReturned(front, g, task);
      assert next[..|tasks| - 1] == front[g := task];
    } else {
      assert next[..|tasks| - 1] == front;
    }
  }

  predicate InSlot(task: Task) {
    task.phase != Queued && !Over(task)
  }

  /** A step of task g that does not return it keeps the bounds, if it respects the worker and group limits. */
  lemma BoundsKept(config: StreamConfig, s: Stream, t: Stream, g: nat)
    requires Bounds(config, s) && g < |s.tasks| && |t.tasks| == |s.tasks|
    requires t.tasks == s.tasks[g := t.tasks[g]] && t.pending == s.pending && |t.plans| >= |s.plans|
    requires t.tasks[g].start == s.tasks[g].start && t.tasks[g].stop == s.tasks[g].stop
    requires s.tasks[g].phase != Returned && t.tasks[g].phase != Returned
    requires t.slots == (if InSlot(t.tasks[g]) then s.slots + {g} else s.slots - {g})
    requires t.slots <= s.slots || |s.slots| < config.limits.maxGroups
    requires t.busy <= s.busy || |t.busy| <= config.limits.maxWorkers
    requires forall i :: i in t.busy ==> i < |t.plans|
    ensures Bounds(config, t)
  {
    OutstandingSame(s.tasks, g, t.tasks[g]);
    if t.slots <= s.slots {
      SubsetSize(t.slots, s.slots);
    }
    if t.busy <= s.busy {
      SubsetSize(t.busy, s.busy);
    }
  }

  /** The ledgers are as they were. */
  ghost predicate SameBooks(s: Stream, t: Stream) {
    && t.reserved == s.reserved && t.quarantined == s.quarantined && t.held == s.held && t.quarantine == s.quarantine
    && t.plans == s.plans
  }

  lemma BooksKept(config: StreamConfig, s: Stream, t: Stream)
    requires Books(config, s) && SameBooks(s, t)
    ensures Books(config, t)
  {
  }

  /** What a sound stream says about one task. */
  lemma SoundTask(config: StreamConfig, s: Stream, g: nat)
    requires Sound(config, s) && g < |s.tasks|
    ensures var task := s.tasks[g];
            && Shape(config, s.plans, s.cancelled, task) && Marks(task, s.held, s.quarantine, s.busy)
            && HistoryBelow(task.history, task.start, task.start + task.offset)
            && WholeWaves(task.history, s.held, s.quarantine)
    ensures Bounds(config, s) && config.Valid() && Books(config, s)
    ensures g in s.slots <==> InSlot(s.tasks[g])
    ensures forall i :: i in s.busy ==> i < |s.plans|
  {
    assert TaskOk(config, s, s.tasks[g]);
    hide Shape, Marks, WholeWaves, HistoryBelow, Books;
  }

  // ----- the steps

  /** A step of task g that touches no charge and no worker. */
  lemma SlotStep(config: StreamConfig, s: Stream, g: nat, next: Task, slots: set<nat>)
    requires Sound(config, s) && g < |s.tasks| && next.start == s.tasks[g].start && next.stop == s.tasks[g].stop
    requires s.tasks[g].phase != Returned && next.phase != Returned
    requires slots == if InSlot(next) then s.slots + {g} else s.slots - {g}
    requires slots <= s.slots || |s.slots| < config.limits.maxGroups
    requires next.history == s.tasks[g].history && s.tasks[g].offset <= next.offset
    requires Shape(config, s.plans, s.cancelled, next) && Marks(next, s.held, s.quarantine, s.busy)
    ensures Sound(config, s.(tasks := s.tasks[g := next], slots := slots))
  {
    hide Sound, Bounds, Shape, Marks, WholeWaves, SameOutside, Books;
    var t := s.(tasks := s.tasks[g := next], slots := slots);
    SoundTask(config, s, g);
    StillQuarantined(config, s);
    BoundsKept(config, s, t, g);
    BooksKept(config, s, t);
    SameIsSameOutside(s, t, s.tasks[g]);
    TaskStepSound(config, s, t, g);
  }

  /** A step of task g that changes nothing but the task's phase, and the cancellation perhaps. */
  lemma PhaseStep(config: StreamConfig, s: Stream, t: Stream, g: nat)
    requires Sound(config, s) && g < |s.tasks| && |t.tasks| == |s.tasks|
    requires t == s.(tasks := s.tasks[g := t.tasks[g]], cancelled := t.cancelled) && (s.cancelled ==> t.cancelled)
    requires t.tasks[g] == s.tasks[g].(phase := t.tasks[g].phase)
    requires InSlot(s.tasks[g]) && InSlot(t.tasks[g])
    requires Shape(config, s.plans, t.cancelled, t.tasks[g]) && Marks(t.tasks[g], s.held, s.quarantine, s.busy)
    ensures Sound(config, t)
  {
    SoundTask(config, s, g);
    StillQuarantined(config, s);
    hide Sound, Bounds, Shape, Marks, WholeWaves, HistoryBelow, SameOutside, Books;
    BoundsKept(config, s, t, g);
    BooksKept(config, s, t);
    SameIsSameOutside(s, t, s.tasks[g]);
    TaskStepSound(config, s, t, g);
  }

  lemma StillQuarantined(config: StreamConfig, s: Stream)
    requires Sound(config, s)
    ensures s.quarantine != {} ==> s.cancelled
  {
    hide Books, Bounds, Owners, TaskOk;
  }

  lemma EnterKeepsTask(config: StreamConfig, s: Stream, task: Task)
    requires task.phase == Queued
    requires Shape(config, s.plans, s.cancelled, task) && Marks(task, s.held, s.quarantine, s.busy)
    ensures var phase := if task.waves then Choosing else Collecting(AllWaiting(task.stop - task.start));
            var next := task.(phase := phase);
            Shape(config, s.plans, s.cancelled, next) && Marks(next, s.held, s.quarantine, s.busy)
  {
    hide Split, GoodWave;
    var next := task.(phase := if task.waves then Choosing else Collecting(AllWaiting(task.stop - task.start)));
    forall i: nat | task.start <= i < task.stop ensures Marked(next, s.held, s.quarantine, s.busy, i) {
      assert Marked(task, s.held, s.quarantine, s.busy, i);
    }
  }

  lemma EnterSound(config: StreamConfig, s: Stream, g: nat)
    requires Sound(config, s) && g < |s.tasks|
    ensures Sound(config, Enter(config, s, g))
  {
    hide *;
    EnterIs(config, s, g);
    var task := s.tasks[g];
    if Enter(config, s, g) != s {
      var next := task.(phase := if task.waves then Choosing else Collecting(AllWaiting(task.stop - task.start)));
      PhaseInSlot(next);
      SoundTask(config, s, g);
      EnterKeepsTask(config, s, task);
      SlotStep(config, s, g, next, s.slots + {g});
    }
  }

  lemma EnterIs(config: StreamConfig, s: Stream, g: nat)
    requires g < |s.tasks|
    ensures Enter(config, s, g) == s ||
            var task := s.tasks[g];
            && task.phase == Queued && |s.slots| < config.limits.maxGroups && task.start <= task.stop
            && var next := task.(phase := if task.waves then Choosing else Collecting(AllWaiting(task.stop - task.start)));
               Enter(config, s, g) == s.(tasks := s.tasks[g := next], slots := s.slots + {g})
  {
  }

  lemma SameIsSameOutside(s: Stream, t: Stream, task: Task)
    requires t.held == s.held && t.quarantine == s.quarantine && t.busy == s.busy
    ensures SameOutside(s, t, task)
  {
  }

  lemma ChosenShape(config: StreamConfig, plans: seq<Plan>, cancelled: bool, task: Task)
    requires config.Valid() && task.phase == Choosing && Shape(config, plans, cancelled, task)
    requires forall i :: 0 <= i < |plans| ==> Fits(map[], config.limits.capacities, plans[i].requirement)
    ensures Shape(config, plans, cancelled, Chosen(config, plans, cancelled, task))
  {
    hide Split, Fits, RangeFits, WaveSize;
    var low := task.start + task.offset;
    if low < task.stop && !cancelled {
      WaveIsNonempty(config, plans, low, task.stop);
    }
  }

  lemma ChosenMarks(config: StreamConfig, plans: seq<Plan>, cancelled: bool, task: Task, s: Stream)
    requires task.phase == Choosing && task.waves && |task.results| == task.offset
    requires task.start + task.offset <= task.stop <= |plans|
    requires Marks(task, s.held, s.quarantine, s.busy)
    ensures Marks(Chosen(config, plans, cancelled, task), s.held, s.quarantine, s.busy)
  {
    hide Fits, RangeFits, WaveSize;
    var next := Chosen(config, plans, cancelled, task);
    forall i: nat | task.start <= i < task.stop ensures Marked(next, s.held, s.quarantine, s.busy, i) {
      assert Marked(task, s.held, s.quarantine, s.busy, i);
      if next.phase.Complete? && task.start + task.offset <= i {
        assert next.results[i - task.start] == NotAdmittedResult(plans[i]);
      }
    }
  }

  lemma ChooseSound(config: StreamConfig, s: Stream, g: nat)
    requires Sound(config, s) && g < |s.tasks|
    ensures Sound(config, Choose(config, s, g))
  {
    var t, task := Choose(config, s, g), s.tasks[g];
    hide Sound, Bounds, Marks, WholeWaves, HistoryBelow, Books, WaveSize;
    SoundTask(config, s, g);
    if t != s {
      FitAlone(config, s);
      ChosenShape(config, s.plans, s.cancelled, task);
      ChosenMarks(config, s.plans, s.cancelled, task, s);
      hide Shape;
      SlotStep(config, s, g, t.tasks[g], t.slots);
    }
  }

  lemma FitAlone(config: StreamConfig, s: Stream)
    requires Books(config, s)
    ensures forall i :: 0 <= i < |s.plans| ==> Fits(map[], config.limits.capacities, s.plans[i].requirement)
  {
    hide Fits, Balanced;
  }

  lemma AdmittedKeepsTask(config: StreamConfig, s: Stream, task: Task, ok: bool)
    requires task.phase.Opening? && Shape(config, s.plans, s.cancelled, task)
    requires Marks(task, s.held, s.quarantine, s.busy) && |task.results| == task.offset
    ensures var phase := if ok then Collecting(AllWaiting(task.phase.size))
                         else Settling(Repeat(UNRESOLVED, task.phase.size), true);
            var next := task.(phase := phase);
            Shape(config, s.plans, s.cancelled || !ok, next) && Marks(next, s.held, s.quarantine, s.busy)
  {
    hide Split, GoodWave;
    var next := task.(phase := if ok then Collecting(AllWaiting(task.phase.size))
                               else Settling(Repeat(UNRESOLVED, task.phase.size), true));
    forall i: nat | task.start <= i < task.stop ensures Marked(next, s.held, s.quarantine, s.busy, i) {
      assert Marked(task, s.held, s.quarantine, s.busy, i);
    }
  }

  lemma AdmittedSound(config: StreamConfig, s: Stream, g: nat, ok: bool)
    requires Sound(config, s) && g < |s.tasks|
    ensures Sound(config, Admitted(s, g, ok))
  {
    var t, task := Admitted(s, g, ok), s.tasks[g];
    SoundTask(config, s, g);
    ResultsSoFar(config, s.plans, s.cancelled, task);
    if t != s {
      hide Sound, Shape, Marks, WholeWaves, HistoryBelow, Books, Bounds;
      AdmittedKeepsTask(config, s, task, ok);
      PhaseStep(config, s, t, g);
    }
  }

  lemma ResultsSoFar(config: StreamConfig, plans: seq<Plan>, cancelled: bool, task: Task)
    requires Shape(config, plans, cancelled, task)
    ensures !Over(task) ==> |task.results| == task.offset
    ensures task.start + task.offset + BatchSize(task) <= task.stop <= |plans|
    ensures (task.phase.Reserving? || task.phase.Opening? || task.phase.Settling?) ==> task.waves && BatchSize(task) > 0
    ensures task.phase.Collecting? ==> BatchSize(task) > 0
    ensures InSlot(task) ==> |task.results| == task.offset && task.start + task.offset <= task.stop <= |plans|
    ensures task.phase.Reserving? || task.phase.Opening? ==> task.start + task.offset + task.phase.size <= task.stop
    ensures task.phase.Collecting? ==> task.start + task.offset + |task.phase.members| <= task.stop
    ensures task.phase.Collecting? ==> task.waves || (task.offset == 0 && task.history == [])
    ensures task.phase.Settling? ==> task.start + task.offset + |task.phase.observed| <= task.stop
    ensures task.waves && BatchSize(task) > 0 ==>
              GoodWave(config, plans, task.start + task.offset, task.start + task.offset + BatchSize(task))
  {
    hide Split, GoodWave;
  }

  // ----- reserving a wave

  lemma ReservedMarks(task: Task, s: Stream, low: nat, high: nat)
    requires task.phase.Reserving? && task.waves && |task.results| == task.offset
    requires low == task.start + task.offset && high == low + task.phase.size <= task.stop
    requires Marks(task, s.held, s.quarantine, s.busy)
    ensures Marks(task.(phase := Opening(task.phase.size)), s.held + Range(low, high), s.quarantine, s.busy)
    ensures forall i: nat :: low <= i < high ==> i !in s.held
  {
    var next := task.(phase := Opening(task.phase.size));
    forall i: nat | low <= i < high ensures i !in s.held {
      assert Marked(task, s.held, s.quarantine, s.busy, i);
    }
    forall i: nat | task.start <= i < task.stop
      ensures Marked(next, s.held + Range(low, high), s.quarantine, s.busy, i)
    {
      assert Marked(task, s.held, s.quarantine, s.busy, i);
    }
  }

  lemma ReservedHistory(task: Task, s: Stream, low: nat, high: nat)
    requires WholeWaves(task.history, s.held, s.quarantine) && HistoryBelow(task.history, task.start, task.start + task.offset)
    requires task.start + task.offset <= low
    ensures WholeWaves(task.history, s.held + Range(low, high), s.quarantine)
  {
  }

  lemma ReserveBooks(config: StreamConfig, s: Stream, low: nat, high: nat)
    requires Books(config, s) && high <= |s.plans|
    requires forall i: nat :: low <= i < high ==> i !in s.held
    requires RangeFits(s.reserved, config.limits.capacities, s.plans, low, high)
    ensures Books(config, s.(reserved := CreditRange(s.reserved, s.plans, low, high), held := s.held + Range(low, high)))
  {
    hide Balanced, RangeFits, Fits;
    assert Kept(s.plans, config.limits.capacities, s.reserved, s.held, s.quarantined, s.quarantine);
    ChargeRange(s.plans, config.limits.capacities, s.reserved, s.held, s.quarantined, s.quarantine, low, high);
  }

  lemma RangeSameOutside(s: Stream, t: Stream, task: Task, low: nat, high: nat)
    requires task.start <= low && high <= task.stop && t.busy == s.busy
    requires t.held == s.held || t.held == s.held + Range(low, high) || t.held == s.held - Range(low, high)
    requires t.quarantine == s.quarantine || t.quarantine == s.quarantine + Range(low, high)
    ensures SameOutside(s, t, task)
  {
  }

  lemma ReserveSound(config: StreamConfig, s: Stream, g: nat)
    requires Sound(config, s) && g < |s.tasks|
    ensures Sound(config, Reserve(config, s, g))
  {
    hide Sound, Shape, Marks, WholeWaves, HistoryBelow, Books, Bounds, RangeFits, GoodWave, SameOutside, CreditRange, Range;
    var task := s.tasks[g];
    if task.phase.Reserving? {
      if s.cancelled {
        SoundTask(config, s, g);
        ReserveShape(config, s.plans, s.cancelled, task);
        ResultsSoFar(config, s.plans, s.cancelled, task);
        BackMarks(task, s);
        PhaseStep(config, s, Reserve(config, s, g), g);
      } else if Reserve(config, s, g) != s {
        ReserveChargeSound(config, s, g);
      }
    }
  }

  lemma ReserveChargeSound(config: StreamConfig, s: Stream, g: nat)
    requires Sound(config, s) && g < |s.tasks| && s.tasks[g].phase.Reserving? && !s.cancelled
    requires var task := s.tasks[g];
             && task.start + task.offset + task.phase.size <= |s.plans|
             && RangeFits(s.reserved, config.limits.capacities, s.plans,
                          task.start + task.offset, task.start + task.offset + task.phase.size)
    ensures Sound(config, Reserve(config, s, g))
  {
    hide *;
    var task := s.tasks[g];
    var low, high := task.start + task.offset, task.start + task.offset + task.phase.size;
    var next := task.(phase := Opening(task.phase.size));
    var t := s.(reserved := CreditRange(s.reserved, s.plans, low, high), held := s.held + Range(low, high));
    ReserveCharges(config, s, g);
    PhaseInSlot(task);
    PhaseInSlot(next);
    SoundTask(config, s, g);
    StillQuarantined(config, s);
    ResultsSoFar(config, s.plans, s.cancelled, task);
    ReserveShape(config, s.plans, s.cancelled, task);
    ReservedMarks(task, s, low, high);
    ReservedHistory(task, s, low, high);
    ReserveBooks(config, s, low, high);
    RangeSameOutside(s, t, task, low, high);
    LedgerStep(config, s, g, next, t);
  }

  lemma SameOutsideOn(s: Stream, t: Stream, u: Stream, task: Task)
    requires SameOutside(s, t, task) && u.held == t.held && u.quarantine == t.quarantine && u.busy == t.busy
    ensures SameOutside(s, u, task)
  {
  }

  lemma PhaseInSlot(task: Task)
    ensures InSlot(task) <==> task.phase != Queued && task.phase != Complete && task.phase != Returned
  {
  }

  lemma ReserveCharges(config: StreamConfig, s: Stream, g: nat)
    requires g < |s.tasks| && s.tasks[g].phase.Reserving? && !s.cancelled
    requires var task := s.tasks[g];
             && task.start + task.offset + task.phase.size <= |s.plans|
             && RangeFits(s.reserved, config.limits.capacities, s.plans,
                          task.start + task.offset, task.start + task.offset + task.phase.size)
    ensures var task := s.tasks[g];
            var low, high := task.start + task.offset, task.start + task.offset + task.phase.size;
            var t := s.(reserved := CreditRange(s.reserved, s.plans, low, high), held := s.held + Range(low, high));
            Reserve(config, s, g) == t.(tasks := t.tasks[g := task.(phase := Opening(task.phase.size))])
  {
    hide CreditRange, Range, RangeFits;
  }

  /** A step of task g that charges, releases or quarantines, or takes or returns a worker. `t` is the state
      with its ledgers, workers and cancellation, but not yet the task, as the step leaves them. */
  lemma LedgerStep(config: StreamConfig, s: Stream, g: nat, next: Task, t: Stream)
    requires Sound(config, s) && g < |s.tasks| && next.start == s.tasks[g].start && next.stop == s.tasks[g].stop
    requires InSlot(s.tasks[g]) && InSlot(next)
    requires t == s.(reserved := t.reserved, held := t.held, quarantined := t.quarantined, quarantine := t.quarantine,
                     busy := t.busy, cancelled := t.cancelled)
    requires t.busy <= s.busy || |t.busy| <= config.limits.maxWorkers
    requires forall i :: i in t.busy ==> i < |t.plans|
    requires SameOutside(s, t, s.tasks[g]) && (t.quarantine != {} ==> t.cancelled)
    requires (s.cancelled ==> t.cancelled) && Books(config, t)
    requires Shape(config, t.plans, t.cancelled, next) && Marks(next, t.held, t.quarantine, t.busy)
    requires HistoryBelow(next.history, next.start, next.start + next.offset)
    requires WholeWaves(next.history, t.held, t.quarantine)
    ensures Sound(config, t.(tasks := t.tasks[g := next]))
  {
    var u := t.(tasks := t.tasks[g := next]);
    hide Sound, Bounds, Shape, Marks, WholeWaves, HistoryBelow, SameOutside, Books;
    SoundTask(config, s, g);
    BoundsKept(config, s, u, g);
    BooksKept(config, t, u);
    SameOutsideOn(s, t, u, s.tasks[g]);
    TaskStepSoundFrom(config, s, u, g);
  }

  lemma BackMarks(task: Task, s: Stream)
    requires task.phase.Reserving? && task.waves && Marks(task, s.held, s.quarantine, s.busy)
    ensures Marks(task.(phase := Choosing), s.held, s.quarantine, s.busy)
  {
    forall i: nat | task.start <= i < task.stop ensures Marked(task.(phase := Choosing), s.held, s.quarantine, s.busy, i) {
      assert Marked(task, s.held, s.quarantine, s.busy, i);
    }
  }

  lemma ReserveShape(config: StreamConfig, plans: seq<Plan>, cancelled: bool, task: Task)
    requires Shape(config, plans, cancelled, task)
    ensures task.phase.Reserving? ==> Shape(config, plans, cancelled, task.(phase := Choosing))
    ensures task.phase.Reserving? ==> Shape(config, plans, cancelled, task.(phase := Opening(task.phase.size)))
  {
    hide Split, GoodWave;
  }

  lemma TaskStepSoundFrom(config: StreamConfig, s: Stream, t: Stream, g: nat)
    requires Sound(config, s) && g < |s.tasks| && |t.tasks| == |s.tasks|
    requires t.plans == s.plans && (s.cancelled ==> t.cancelled) && (t.quarantine != {} ==> t.cancelled)
    requires t.tasks == s.tasks[g := t.tasks[g]]
    requires t.tasks[g].start == s.tasks[g].start && t.tasks[g].stop == s.tasks[g].stop
    requires SameOutside(s, t, s.tasks[g]) && Books(config, t) && Bounds(config, t)
    requires var task := t.tasks[g];
             && Shape(config, t.plans, t.cancelled, task) && Marks(task, t.held, t.quarantine, t.busy)
             && HistoryBelow(task.history, task.start, task.start + task.offset)
             && WholeWaves(task.history, t.held, t.quarantine)
    ensures Sound(config, t)
  {
    hide Sound, Bounds, Shape, Marks, WholeWaves, HistoryBelow, SameOutside, Books;
    TaskStepSound(config, s, t, g);
  }

  // ----- one plan of a batch

  function WithMember(task: Task, k: nat, member: Member): Task
    requires task.phase.Collecting? && k < |task.phase.members|
  {
    task.(phase := Collecting(task.phase.members[k := member]))
  }

  lemma MemberShape(config: StreamConfig, plans: seq<Plan>, cancelled: bool, now: bool, task: Task, k: nat, member: Member)
    requires Shape(config, plans, cancelled, task) && task.phase.Collecting? && k < |task.phase.members|
    requires task.waves ==> !member.Room?
    ensures Shape(config, plans, now, WithMember(task, k, member))
  {
    hide Split, GoodWave;
  }

  /** Replacing one plan's progress changes nothing for the batch's other plans. */
  lemma MemberMarks(task: Task, k: nat, member: Member, s: Stream, held: set<nat>, quarantine: set<nat>, busy: set<nat>)
    requires task.phase.Collecting? && k < |task.phase.members| && |task.results| == task.offset
    requires PlanOf(task, k) < task.stop && Marks(task, s.held, s.quarantine, s.busy)
    requires task.waves || task.offset == 0
    requires forall i: nat :: i != PlanOf(task, k) ==>
               (i in held <==> i in s.held) && (i in quarantine <==> i in s.quarantine) && (i in busy <==> i in s.busy)
    requires Marked(WithMember(task, k, member), held, quarantine, busy, PlanOf(task, k))
    ensures Marks(WithMember(task, k, member), held, quarantine, busy)
  {
    forall i: nat | task.start <= i < task.stop ensures Marked(WithMember(task, k, member), held, quarantine, busy, i) {
      if i != PlanOf(task, k) {
        assert Marked(task, s.held, s.quarantine, s.busy, i);
      }
    }
  }

  lemma MarkedAt(task: Task, k: nat, s: Stream)
    requires task.phase.Collecting? && k < |task.phase.members| && PlanOf(task, k) < task.stop
    requires Marks(task, s.held, s.quarantine, s.busy)
    ensures Marked(task, s.held, s.quarantine, s.busy, PlanOf(task, k))
  {
  }

  /** Charges from the offset on do not matter to the waves already settled. */
  lemma SettledUnaffected(task: Task, s: Stream, t: Stream)
    requires HistoryBelow(task.history, task.start, task.start + task.offset)
    requires WholeWaves(task.history, s.held, s.quarantine)
    requires forall i: nat :: i < task.start + task.offset ==>
               (i in t.held <==> i in s.held) && (i in t.quarantine <==> i in s.quarantine)
    ensures WholeWaves(task.history, t.held, t.quarantine)
  {
  }

  /** The state around a plan's progress agrees with the old one everywhere else. */
  ghost predicate OnlyAt(s: Stream, t: Stream, i: nat) {
    forall j: nat :: j != i ==>
      (j in t.held <==> j in s.held) && (j in t.quarantine <==> j in s.quarantine) && (j in t.busy <==> j in s.busy)
  }

  lemma OnlyAtIsOutside(s: Stream, t: Stream, task: Task, i: nat)
    requires OnlyAt(s, t, i) && task.start <= i < task.stop
    ensures SameOutside(s, t, task)
  {
  }

  /** One plan of task g makes progress. `t` is the state but for the task. */
  lemma MemberStep(config: StreamConfig, s: Stream, g: nat, k: nat, member: Member, t: Stream)
    requires Sound(config, s) && g < |s.tasks| && s.tasks[g].phase.Collecting? && k < |s.tasks[g].phase.members|
    requires s.tasks[g].waves ==> !member.Room?
    requires t == s.(reserved := t.reserved, held := t.held, quarantined := t.quarantined, quarantine := t.quarantine,
                     busy := t.busy, cancelled := t.cancelled)
    requires t.busy <= s.busy || |t.busy| <= config.limits.maxWorkers
    requires forall i :: i in t.busy ==> i < |t.plans|
    requires (s.cancelled ==> t.cancelled) && Books(config, t) && (t.quarantine != {} ==> t.cancelled)
    requires OnlyAt(s, t, PlanOf(s.tasks[g], k)) && PlanOf(s.tasks[g], k) < s.tasks[g].stop
    requires Marked(WithMember(s.tasks[g], k, member), t.held, t.quarantine, t.busy, PlanOf(s.tasks[g], k))
    ensures Sound(config, t.(tasks := t.tasks[g := WithMember(s.tasks[g], k, member)]))
  {
    hide Sound, Bounds, Shape, Marks, Marked, WholeWaves, HistoryBelow, SameOutside, Books;
    var task := s.tasks[g];
    SoundTask(config, s, g);
    ResultsSoFar(config, s.plans, s.cancelled, task);
    MemberShape(config, s.plans, s.cancelled, t.cancelled, task, k, member);
    MemberMarks(task, k, member, s, t.held, t.quarantine, t.busy);
    SettledUnaffected(task, s, t);
    OnlyAtIsOutside(s, t, task, PlanOf(task, k));
    LedgerStep(config, s, g, WithMember(task, k, member), t);
  }

  /** What becomes of a waiting member once there is a worker for it. */
  function StartedMember(s: Stream, g: nat): Member
    requires g < |s.tasks|
  {
    if !s.tasks[g].waves then Room else if s.cancelled then Done(NOT_ADMITTED) else Working
  }

  function StartedBusy(s: Stream, g: nat, i: nat): set<nat>
    requires g < |s.tasks|
  {
    if StartedMember(s, g).Done? then s.busy else s.busy + {i}
  }

  lemma StartIs(config: StreamConfig, s: Stream, g: nat, k: nat)
    requires At(s.tasks, g, k, Waiting) && |s.busy| < config.limits.maxWorkers
    ensures Start(config, s, g, k) ==
              s.(busy := StartedBusy(s, g, PlanOf(s.tasks[g], k)),
                 tasks := s.tasks[g := WithMember(s.tasks[g], k, StartedMember(s, g))])
  {
  }

  lemma StartIdle(config: StreamConfig, s: Stream, g: nat, k: nat)
    requires !At(s.tasks, g, k, Waiting) || |s.busy| >= config.limits.maxWorkers
    ensures Start(config, s, g, k) == s
  {
  }

  lemma StartMarked(s: Stream, g: nat, k: nat)
    requires At(s.tasks, g, k, Waiting) && PlanOf(s.tasks[g], k) < s.tasks[g].stop
    requires Marked(s.tasks[g], s.held, s.quarantine, s.busy, PlanOf(s.tasks[g], k))
    ensures var i := PlanOf(s.tasks[g], k);
            Marked(WithMember(s.tasks[g], k, StartedMember(s, g)), s.held, s.quarantine, StartedBusy(s, g, i), i)
  {
  }

  lemma StartOnlyAt(s: Stream, g: nat, i: nat)
    requires g < |s.tasks|
    ensures OnlyAt(s, s.(busy := StartedBusy(s, g, i)), i)
    ensures |StartedBusy(s, g, i)| <= |s.busy| + 1
    ensures StartedMember(s, g).Done? ==> StartedBusy(s, g, i) == s.busy
    ensures s.tasks[g].waves ==> !StartedMember(s, g).Room?
  {
  }

  lemma BusyInRange(config: StreamConfig, s: Stream, i: nat, g: nat)
    requires Sound(config, s) && i < |s.plans| && g < |s.tasks|
    ensures forall j :: j in StartedBusy(s, g, i) ==> j < |s.plans|
  {
    hide Books, Owners, TaskOk;
  }

  lemma StartSound(config: StreamConfig, s: Stream, g: nat, k: nat)
    requires Sound(config, s)
    ensures Sound(config, Start(config, s, g, k))
  {
    hide Sound, Bounds, Shape, Marks, Marked, WholeWaves, HistoryBelow, Books, Start, StartedBusy, StartedMember, OnlyAt;
    if At(s.tasks, g, k, Waiting) && |s.busy| < config.limits.maxWorkers {
      var task, i := s.tasks[g], PlanOf(s.tasks[g], k);
      SoundTask(config, s, g);
      ResultsSoFar(config, s.plans, s.cancelled, task);
      MarkedAt(task, k, s);
      StillQuarantined(config, s);
      var t := s.(busy := StartedBusy(s, g, i));
      BooksKept(config, s, t);
      StartMarked(s, g, k);
      StartOnlyAt(s, g, i);
      BusyInRange(config, s, i, g);
      StartIs(config, s, g, k);
      MemberStep(config, s, g, k, StartedMember(s, g), t);
    } else {
      StartIdle(config, s, g, k);
    }
  }

  lemma GrantBooks(config: StreamConfig, s: Stream, i: nat)
    requires Books(config, s) && i < |s.plans| && i !in s.held
    requires Fits(s.reserved, config.limits.capacities, s.plans[i].requirement)
    ensures Books(config, s.(reserved := Credit(s.reserved, s.plans[i].requirement), held := s.held + {i}))
  {
    CreditWithin(s.reserved, config.limits.capacities, s.plans[i].requirement);
    ChargeBalanced(Requirements(s.plans), config.limits.capacities,
                   s.reserved, s.held, s.quarantined, s.quarantine, i);
    hide Balanced, Fits;
  }

  lemma GrantSound(config: StreamConfig, s: Stream, g: nat, k: nat)
    requires Sound(config, s)
    ensures Sound(config, Grant(config, s, g, k))
  {
    hide Sound, Bounds, Shape, Marks, WholeWaves, HistoryBelow, Books, Fits;
    if At(s.tasks, g, k, Room) {
      var task, i := s.tasks[g], PlanOf(s.tasks[g], k);
      SoundTask(config, s, g);
      ResultsSoFar(config, s.plans, s.cancelled, task);
      NoRoomInWaves(config, s.plans, s.cancelled, task, k);
      MarkedAt(task, k, s);
      StillQuarantined(config, s);
      if s.cancelled {
        var t := s.(busy := s.busy - {i});
        BooksKept(config, s, t);
        MemberStep(config, s, g, k, Done(NOT_ADMITTED), t);
      } else if Fits(s.reserved, config.limits.capacities, s.plans[i].requirement) {
        GrantBooks(config, s, i);
        MemberStep(config, s, g, k, Working,
                   s.(reserved := Credit(s.reserved, s.plans[i].requirement), held := s.held + {i}));
      }
    }
  }

  lemma NoRoomInWaves(config: StreamConfig, plans: seq<Plan>, cancelled: bool, task: Task, k: nat)
    requires Shape(config, plans, cancelled, task) && task.phase.Collecting? && k < |task.phase.members|
    ensures task.phase.members[k].Room? ==> !task.waves
  {
  }

  lemma FinishBooks(config: StreamConfig, s: Stream, i: nat)
    requires Books(config, s) && i < |s.plans| && i in s.held && i !in s.quarantine
    ensures Books(config, s.(reserved := Debit(s.reserved, s.plans[i].requirement), held := s.held - {i}))
    ensures Books(config, s.(quarantined := Credit(s.quarantined, s.plans[i].requirement), quarantine := s.quarantine + {i}))
  {
    var capacities := config.limits.capacities;
    ReleaseBalanced(Requirements(s.plans), capacities, s.reserved, s.held, s.quarantined, s.quarantine, i);
    QuarantineBalanced(Requirements(s.plans), capacities, s.reserved, s.held, s.quarantined, s.quarantine, i);
    hide Balanced, Fits, AllNonNegative;
  }

  /** An episode of a wave ends: its charge waits for the wave. */
  lemma FinishInWave(config: StreamConfig, s: Stream, g: nat, k: nat, outcome: Outcome, cancelled: bool)
    requires Sound(config, s) && At(s.tasks, g, k, Working) && s.tasks[g].waves && (s.cancelled ==> cancelled)
    ensures var t := s.(busy := s.busy - {PlanOf(s.tasks[g], k)}, cancelled := cancelled);
            Sound(config, t.(tasks := t.tasks[g := WithMember(s.tasks[g], k, Done(outcome))]))
  {
    hide Sound, Bounds, Shape, Marks, WholeWaves, HistoryBelow, Books;
    var task, i := s.tasks[g], PlanOf(s.tasks[g], k);
    SoundTask(config, s, g);
    ResultsSoFar(config, s.plans, s.cancelled, task);
    MarkedAt(task, k, s);
    StillQuarantined(config, s);
    var t := s.(busy := s.busy - {i}, cancelled := cancelled);
    BooksKept(config, s, t);
    MemberStep(config, s, g, k, Done(outcome), t);
  }

  lemma FinishAlone(config: StreamConfig, s: Stream, g: nat, k: nat, outcome: Outcome, cancelled: bool)
    requires Sound(config, s) && At(s.tasks, g, k, Working) && !s.tasks[g].waves
    requires (s.cancelled ==> cancelled) && (!outcome.Safe() ==> cancelled)
    ensures PlanOf(s.tasks[g], k) < |s.plans|
    ensures var i := PlanOf(s.tasks[g], k);
            var freed := s.(busy := s.busy - {i}, cancelled := cancelled);
            var t :=
              if outcome.Safe() then freed.(reserved := Debit(s.reserved, s.plans[i].requirement), held := s.held - {i})
              else freed.(quarantined := Credit(s.quarantined, s.plans[i].requirement), quarantine := s.quarantine + {i});
            Sound(config, t.(tasks := t.tasks[g := WithMember(s.tasks[g], k, Done(outcome))]))
  {
    hide Sound, Bounds, Shape, Marks, WholeWaves, HistoryBelow, Books, Outcome.Safe;
    var task, i := s.tasks[g], PlanOf(s.tasks[g], k);
    SoundTask(config, s, g);
    ResultsSoFar(config, s.plans, s.cancelled, task);
    MarkedAt(task, k, s);
    StillQuarantined(config, s);
    var freed := s.(busy := s.busy - {i}, cancelled := cancelled);
    BooksKept(config, s, freed);
    FinishBooks(config, freed, i);
    var t :=
      if outcome.Safe() then freed.(reserved := Debit(s.reserved, s.plans[i].requirement), held := s.held - {i})
      else freed.(quarantined := Credit(s.quarantined, s.plans[i].requirement), quarantine := s.quarantine + {i});
    MemberStep(config, s, g, k, Done(outcome), t);
  }

  lemma FinishIdle(s: Stream, g: nat, k: nat, outcome: Outcome)
    requires !At(s.tasks, g, k, Working) || PlanOf(s.tasks[g], k) >= |s.plans|
    ensures Finish(s, g, k, outcome) == s
  {
  }

  lemma FinishInWaveIs(s: Stream, g: nat, k: nat, outcome: Outcome, cancelled: bool)
    requires At(s.tasks, g, k, Working) && PlanOf(s.tasks[g], k) < |s.plans| && s.tasks[g].waves
    requires cancelled == (s.cancelled || !outcome.Safe() || outcome.infrastructure || outcome.reviewRequired)
    ensures var t := s.(busy := s.busy - {PlanOf(s.tasks[g], k)}, cancelled := cancelled);
            Finish(s, g, k, outcome) == t.(tasks := t.tasks[g := WithMember(s.tasks[g], k, Done(outcome))])
  {
    hide Outcome.Safe, PlanOf, Debit, Credit;
  }

  lemma FinishAloneIs(s: Stream, g: nat, k: nat, outcome: Outcome, cancelled: bool)
    requires At(s.tasks, g, k, Working) && PlanOf(s.tasks[g], k) < |s.plans| && !s.tasks[g].waves
    requires cancelled == (s.cancelled || !outcome.Safe() || outcome.infrastructure || outcome.reviewRequired)
    ensures var i := PlanOf(s.tasks[g], k);
            var freed := s.(busy := s.busy - {i}, cancelled := cancelled);
            var t :=
              if outcome.Safe() then freed.(reserved := Debit(s.reserved, s.plans[i].requirement), held := s.held - {i})
              else freed.(quarantined := Credit(s.quarantined, s.plans[i].requirement), quarantine := s.quarantine + {i});
            Finish(s, g, k, outcome) == t.(tasks := t.tasks[g := WithMember(s.tasks[g], k, Done(outcome))])
  {
    hide Outcome.Safe, PlanOf, Debit, Credit;
  }

  lemma WorkingPlan(config: StreamConfig, s: Stream, g: nat, k: nat)
    requires Sound(config, s) && At(s.tasks, g, k, Working)
    ensures g < |s.tasks| && PlanOf(s.tasks[g], k) < |s.plans|
  {
    hide Sound, Shape, Marks, Bounds, Books, WholeWaves, HistoryBelow;
    SoundTask(config, s, g);
    ResultsSoFar(config, s.plans, s.cancelled, s.tasks[g]);
  }

  lemma FinishSound(config: StreamConfig, s: Stream, g: nat, k: nat, outcome: Outcome)
    requires Sound(config, s)
    ensures Sound(config, Finish(s, g, k, outcome))
  {
    hide *;
    if At(s.tasks, g, k, Working) {
      WorkingPlan(config, s, g, k);
      var cancelled := s.cancelled || !outcome.Safe() || outcome.infrastructure || outcome.reviewRequired;
      if s.tasks[g].waves {
        FinishInWave(config, s, g, k, outcome, cancelled);
        FinishInWaveIs(s, g, k, outcome, cancelled);
      } else {
        FinishAlone(config, s, g, k, outcome, cancelled);
        FinishAloneIs(s, g, k, outcome, cancelled);
      }
    } else {
      FinishIdle(s, g, k, outcome);
    }
  }

  // ----- the end of a batch

  lemma GatheredShape(config: StreamConfig, plans: seq<Plan>, cancelled: bool, task: Task, uncertain: bool)
    requires Shape(config, plans, cancelled, task) && task.phase.Collecting? && AllDone(task.phase.members)
    ensures var observed := Outcomes(task.phase.members);
            if task.waves then Shape(config, plans, cancelled, task.(phase := Settling(observed, uncertain)))
            else
              Shape(config, plans, cancelled, task.(
                phase := Complete, offset := task.offset + |observed|,
                results := task.results + Identified(plans, task.start + task.offset, observed)))
  {
    hide Split, GoodWave;
  }

  lemma GatheredMarks(plans: seq<Plan>, task: Task, uncertain: bool, s: Stream)
    requires task.phase.Collecting? && AllDone(task.phase.members) && |task.results| == task.offset
    requires task.start + task.offset + |task.phase.members| <= |plans| && (task.waves || task.offset == 0)
    requires task.waves || |task.phase.members| == task.stop - task.start
    requires Marks(task, s.held, s.quarantine, s.busy)
    ensures var observed := Outcomes(task.phase.members);
            if task.waves then Marks(task.(phase := Settling(observed, uncertain)), s.held, s.quarantine, s.busy)
            else
              Marks(task.(phase := Complete, offset := task.offset + |observed|,
                          results := task.results + Identified(plans, task.start + task.offset, observed)),
                    s.held, s.quarantine, s.busy)
  {
    var observed := Outcomes(task.phase.members);
    var next :=
      if task.waves then task.(phase := Settling(observed, uncertain))
      else task.(phase := Complete, offset := task.offset + |observed|,
                 results := task.results + Identified(plans, task.start + task.offset, observed));
    forall i: nat | task.start <= i < task.stop ensures Marked(next, s.held, s.quarantine, s.busy, i) {
      assert Marked(task, s.held, s.quarantine, s.busy, i);
    }
  }

  lemma GatheredSound(config: StreamConfig, s: Stream, g: nat, uncertain: bool)
    requires Sound(config, s) && g < |s.tasks|
    ensures Sound(config, Gathered(s, g, uncertain))
  {
    hide Sound, Bounds, Shape, Marks, WholeWaves, HistoryBelow, Books;
    var task := s.tasks[g];
    if task.phase.Collecting? && AllDone(task.phase.members) {
      var observed := Outcomes(task.phase.members);
      SoundTask(config, s, g);
      ResultsSoFar(config, s.plans, s.cancelled, task);
      CollectsAll(config, s.plans, s.cancelled, task);
      GatheredShape(config, s.plans, s.cancelled, task, uncertain);
      GatheredMarks(s.plans, task, uncertain, s);
      if task.waves {
        PhaseStep(config, s, Gathered(s, g, uncertain), g);
      } else {
        var next := task.(phase := Complete, offset := task.offset + |observed|,
                          results := task.results + Identified(s.plans, task.start + task.offset, observed));
        SlotStep(config, s, g, next, s.slots - {g});
      }
    }
  }

  lemma CollectsAll(config: StreamConfig, plans: seq<Plan>, cancelled: bool, task: Task)
    requires Shape(config, plans, cancelled, task) && task.phase.Collecting?
    ensures task.waves || |task.phase.members| == task.stop - task.start
  {
  }

  // ----- settling a wave

  /** The task after its wave is settled. */
  function SettledTask(plans: seq<Plan>, task: Task): Task
    requires task.phase.Settling? && task.start + task.offset + |task.phase.observed| <= |plans|
  {
    var observed, low := task.phase.observed, task.start + task.offset;
    var safe := ProvenSafe(observed) && !task.phase.uncertain;
    task.(
      phase := Choosing, offset := task.offset + |observed|,
      history := task.history + [Wave(low, low + |observed|, safe)],
      results := task.results + Identified(plans, low, if safe then observed else Doubted(observed)))
  }

  lemma SettledShape(config: StreamConfig, plans: seq<Plan>, cancelled: bool, now: bool, task: Task)
    requires Shape(config, plans, cancelled, task) && task.phase.Settling?
    ensures task.start + task.offset + |task.phase.observed| <= |plans|
    ensures Shape(config, plans, now, SettledTask(plans, task))
  {
    hide GoodWave, ProvenSafe, Outcome.Safe, Identified, Doubted, IdentifiedBy;
    var next, observed := SettledTask(plans, task), task.phase.observed;
    assert next.history[..|next.history| - 1] == task.history;
    MoreIdentified(plans, task.start, task.results, observed);
    MoreIdentified(plans, task.start, task.results, Doubted(observed));
  }

  lemma MoreIdentified(plans: seq<Plan>, start: nat, results: seq<EpisodeResult>, outcomes: seq<Outcome>)
    requires IdentifiedBy(plans, start, results) && start + |results| + |outcomes| <= |plans|
    ensures IdentifiedBy(plans, start, results + Identified(plans, start + |results|, outcomes))
  {
  }

  lemma SettledMarks(plans: seq<Plan>, task: Task, s: Stream, held: set<nat>, quarantine: set<nat>)
    requires task.phase.Settling? && |task.results| == task.offset && task.waves
    requires task.start + task.offset + |task.phase.observed| <= task.stop <= |plans|
    requires Marks(task, s.held, s.quarantine, s.busy)
    requires var low := task.start + task.offset;
             var range := Range(low, low + |task.phase.observed|);
             if ProvenSafe(task.phase.observed) && !task.phase.uncertain
             then held == s.held - range && quarantine == s.quarantine
             else held == s.held && quarantine == s.quarantine + range
    ensures Marks(SettledTask(plans, task), held, quarantine, s.busy)
  {
    forall i: nat | task.start <= i < task.stop ensures Marked(SettledTask(plans, task), held, quarantine, s.busy, i) {
      SettledMark(plans, task, s, held, quarantine, i);
    }
  }

  /** Whether the wave about to be settled is released. */
  predicate Releases(task: Task)
    requires task.phase.Settling?
  {
    ProvenSafe(task.phase.observed) && !task.phase.uncertain
  }

  /** A plan before the wave is past its charge before and after. */
  lemma SettledBelow(plans: seq<Plan>, task: Task, i: nat)
    requires task.phase.Settling? && |task.results| == task.offset && task.waves
    requires task.start + task.offset + |task.phase.observed| <= task.stop <= |plans|
    requires task.start <= i < task.start + task.offset
    ensures StageOf(task, i) == Past == StageOf(SettledTask(plans, task), i)
    ensures SettledOutcome(SettledTask(plans, task), i) == SettledOutcome(task, i)
  {
    hide Outcome.Safe, ProvenSafe, Doubted;
  }

  /** A plan of the wave goes from charged to past, with an outcome that says whether it was released. */
  lemma SettledInside(plans: seq<Plan>, task: Task, i: nat)
    requires task.phase.Settling? && |task.results| == task.offset && task.waves
    requires task.start + task.offset + |task.phase.observed| <= task.stop <= |plans|
    requires task.start + task.offset <= i < task.start + task.offset + |task.phase.observed|
    ensures StageOf(task, i) == Charged && StageOf(SettledTask(plans, task), i) == Past
    ensures var outcome := SettledOutcome(SettledTask(plans, task), i);
            outcome.Some? && (outcome.value.Safe() <==> Releases(task))
  {
    hide Outcome.Safe;
    var k := i - task.start - task.offset;
    var observed := task.phase.observed;
    assert Releases(task) ==> observed[k].Safe();
    assert SettledOutcome(SettledTask(plans, task), i) == Some((if Releases(task) then observed else Doubted(observed))[k]);
  }

  /** A plan after the wave is still to come. */
  lemma SettledAbove(plans: seq<Plan>, task: Task, i: nat)
    requires task.phase.Settling? && |task.results| == task.offset && task.waves
    requires task.start + task.offset + |task.phase.observed| <= task.stop <= |plans|
    requires task.start + task.offset + |task.phase.observed| <= i < task.stop
    ensures StageOf(task, i) == Fresh == StageOf(SettledTask(plans, task), i)
    ensures SettledOutcome(SettledTask(plans, task), i) == None == SettledOutcome(task, i)
  {
    hide Outcome.Safe, ProvenSafe, Doubted;
  }

  /** Outside a running batch nobody has a worker. */
  lemma SettledWithoutWorker(plans: seq<Plan>, task: Task, i: nat)
    requires task.phase.Settling? && task.start + task.offset + |task.phase.observed| <= |plans|
    ensures !HasWorker(task, i) && !HasWorker(SettledTask(plans, task), i)
    ensures SettledTask(plans, task).start == task.start && SettledTask(plans, task).stop == task.stop
  {
    hide Identified, Doubted, ProvenSafe;
  }

  lemma SettledMark(plans: seq<Plan>, task: Task, s: Stream, held: set<nat>, quarantine: set<nat>, i: nat)
    requires task.phase.Settling? && |task.results| == task.offset && task.waves
    requires task.start + task.offset + |task.phase.observed| <= task.stop <= |plans| && task.start <= i < task.stop
    requires Marked(task, s.held, s.quarantine, s.busy, i)
    requires var low := task.start + task.offset;
             var range := Range(low, low + |task.phase.observed|);
             if ProvenSafe(task.phase.observed) && !task.phase.uncertain
             then held == s.held - range && quarantine == s.quarantine
             else held == s.held && quarantine == s.quarantine + range
    ensures Marked(SettledTask(plans, task), held, quarantine, s.busy, i)
  {
    hide Outcome.Safe, StageOf, SettledOutcome, HasWorker, SettledTask, ProvenSafe;
    SettledWithoutWorker(plans, task, i);
    if i < task.start + task.offset {
      SettledBelow(plans, task, i);
    } else if i < task.start + task.offset + |task.phase.observed| {
      SettledInside(plans, task, i);
    } else {
      SettledAbove(plans, task, i);
    }
  }

  lemma SettledHistory(plans: seq<Plan>, task: Task, s: Stream, held: set<nat>, quarantine: set<nat>)
    requires task.phase.Settling? && task.start + task.offset + |task.phase.observed| <= |plans|
    requires HistoryBelow(task.history, task.start, task.start + task.offset)
    requires WholeWaves(task.history, s.held, s.quarantine)
    requires var low := task.start + task.offset;
             var range := Range(low, low + |task.phase.observed|);
             if ProvenSafe(task.phase.observed) && !task.phase.uncertain
             then held == s.held - range && quarantine == s.quarantine
             else held == s.held && quarantine == s.quarantine + range
    ensures var next := SettledTask(plans, task);
            HistoryBelow(next.history, next.start, next.start + next.offset) && WholeWaves(next.history, held, quarantine)
  {
    hide ProvenSafe, Identified, Doubted;
  }

  lemma ChargedInBatch(task: Task, s: Stream)
    requires task.phase.Settling? && task.waves && Marks(task, s.held, s.quarantine, s.busy)
    requires task.start + task.offset + |task.phase.observed| <= task.stop
    ensures forall i: nat :: task.start + task.offset <= i < task.start + task.offset + |task.phase.observed| ==>
              i in s.held && i !in s.quarantine
  {
    forall i: nat | task.start + task.offset <= i < task.start + task.offset + |task.phase.observed|
      ensures i in s.held && i !in s.quarantine
    {
      assert Marked(task, s.held, s.quarantine, s.busy, i);
    }
  }

  lemma SettleBooks(config: StreamConfig, s: Stream, low: nat, high: nat, cancelled: bool)
    requires Books(config, s) && high <= |s.plans|
    requires forall i: nat :: low <= i < high ==> i in s.held && i !in s.quarantine
    ensures Books(config, s.(reserved := DebitRange(s.reserved, s.plans, low, high), held := s.held - Range(low, high)))
    ensures Books(config, s.(quarantined := CreditRange(s.quarantined, s.plans, low, high),
                             quarantine := s.quarantine + Range(low, high), cancelled := true))
  {
    hide Balanced, Fits, AllNonNegative, CreditRange, DebitRange;
    var capacities := config.limits.capacities;
    assert Kept(s.plans, capacities, s.reserved, s.held, s.quarantined, s.quarantine);
    ReleaseRange(s.plans, capacities, s.reserved, s.held, s.quarantined, s.quarantine, low, high);
    QuarantineRange(s.plans, capacities, s.reserved, s.held, s.quarantined, s.quarantine, low, high);
  }

  /** The ledgers after a wave is settled. */
  function SettledLedgers(s: Stream, task: Task): Stream
    requires task.phase.Settling? && task.start + task.offset + |task.phase.observed| <= |s.plans|
  {
    var low := task.start + task.offset;
    var high := low + |task.phase.observed|;
    if ProvenSafe(task.phase.observed) && !task.phase.uncertain
    then s.(reserved := DebitRange(s.reserved, s.plans, low, high), held := s.held - Range(low, high))
    else s.(quarantined := CreditRange(s.quarantined, s.plans, low, high),
            quarantine := s.quarantine + Range(low, high), cancelled := true)
  }

  lemma SettleIs(s: Stream, g: nat)
    requires g < |s.tasks| && s.tasks[g].phase.Settling?
    requires s.tasks[g].start + s.tasks[g].offset + |s.tasks[g].phase.observed| <= |s.plans|
    ensures var t := SettledLedgers(s, s.tasks[g]);
            Settle(s, g) == t.(tasks := t.tasks[g := SettledTask(s.plans, s.tasks[g])])
  {
    hide *;
    if Releases(s.tasks[g]) {
      SettleReleases(s, g);
    } else {
      SettleWithholds(s, g);
    }
  }

  lemma SettleReleases(s: Stream, g: nat)
    requires g < |s.tasks| && s.tasks[g].phase.Settling? && Releases(s.tasks[g])
    requires s.tasks[g].start + s.tasks[g].offset + |s.tasks[g].phase.observed| <= |s.plans|
    ensures var t := SettledLedgers(s, s.tasks[g]);
            Settle(s, g) == t.(tasks := t.tasks[g := SettledTask(s.plans, s.tasks[g])])
  {
    hide ProvenSafe, CreditRange, DebitRange, Range, Identified, Doubted;
  }

  lemma SettleWithholds(s: Stream, g: nat)
    requires g < |s.tasks| && s.tasks[g].phase.Settling? && !Releases(s.tasks[g])
    requires s.tasks[g].start + s.tasks[g].offset + |s.tasks[g].phase.observed| <= |s.plans|
    ensures var t := SettledLedgers(s, s.tasks[g]);
            Settle(s, g) == t.(tasks := t.tasks[g := SettledTask(s.plans, s.tasks[g])])
  {
    hide ProvenSafe, CreditRange, DebitRange, Range, Identified, Doubted;
  }

  lemma LedgersMoved(s: Stream, task: Task)
    requires task.phase.Settling? && task.start + task.offset + |task.phase.observed| <= |s.plans|
    ensures var t, low := SettledLedgers(s, task), task.start + task.offset;
            var range := Range(low, low + |task.phase.observed|);
            && t == s.(reserved := t.reserved, held := t.held, quarantined := t.quarantined,
                       quarantine := t.quarantine, cancelled := t.cancelled)
            && (s.cancelled ==> t.cancelled) && (t.quarantine != s.quarantine ==> t.cancelled)
            && if ProvenSafe(task.phase.observed) && !task.phase.uncertain
               then t.held == s.held - range && t.quarantine == s.quarantine
               else t.held == s.held && t.quarantine == s.quarantine + range
  {
    hide ProvenSafe, CreditRange, DebitRange, Range;
  }

  lemma LedgersBooks(config: StreamConfig, s: Stream, task: Task)
    requires Books(config, s) && task.phase.Settling? && task.start + task.offset + |task.phase.observed| <= |s.plans|
    requires forall i: nat :: task.start + task.offset <= i < task.start + task.offset + |task.phase.observed| ==>
               i in s.held && i !in s.quarantine
    ensures Books(config, SettledLedgers(s, task))
  {
    hide ProvenSafe, CreditRange, DebitRange, Range, Books;
    SettleBooks(config, s, task.start + task.offset, task.start + task.offset + |task.phase.observed|, true);
  }

  lemma SettledStays(task: Task, plans: seq<Plan>)
    requires task.phase.Settling? && task.start + task.offset + |task.phase.observed| <= |plans|
    ensures SettledTask(plans, task).start == task.start && SettledTask(plans, task).stop == task.stop
    ensures SettledTask(plans, task).phase == Choosing
  {
  }

  lemma SettleSound(config: StreamConfig, s: Stream, g: nat)
    requires Sound(config, s) && g < |s.tasks|
    ensures Sound(config, Settle(s, g))
  {
    hide *;
    var task := s.tasks[g];
    if task.phase.Settling? {
      SoundTask(config, s, g);
      StillQuarantined(config, s);
      ResultsSoFar(config, s.plans, s.cancelled, task);
      var t, low := SettledLedgers(s, task), task.start + task.offset;
      PhaseInSlot(task);
      PhaseInSlot(SettledTask(s.plans, task));
      SettledStays(task, s.plans);
      SettleIs(s, g);
      LedgersMoved(s, task);
      ChargedInBatch(task, s);
      LedgersBooks(config, s, task);
      SettledShape(config, s.plans, s.cancelled, t.cancelled, task);
      SettledMarks(s.plans, task, s, t.held, t.quarantine);
      SettledHistory(s.plans, task, s, t.held, t.quarantine);
      RangeSameOutside(s, t, task, low, low + |task.phase.observed|);
      LedgerStep(config, s, g, SettledTask(s.plans, task), t);
    } else {
      SettleIdle(s, g);
    }
  }

  lemma SettleIdle(s: Stream, g: nat)
    requires g < |s.tasks|
    requires var task := s.tasks[g];
             !task.phase.Settling? || task.start + task.offset + |task.phase.observed| > |s.plans|
    ensures Settle(s, g) == s
  {
    hide CreditRange, DebitRange, ProvenSafe, Identified, Doubted, Range;
  }

  // ----- handing back and submitting

  lemma HandBackKeepsTask(config: StreamConfig, s: Stream, task: Task)
    requires task.phase == Complete && Shape(config, s.plans, s.cancelled, task) && Marks(task, s.held, s.quarantine, s.busy)
    ensures Shape(config, s.plans, s.cancelled, task.(phase := Returned))
    ensures Marks(task.(phase := Returned), s.held, s.quarantine, s.busy)
  {
    hide Split, GoodWave;
    forall i: nat | task.start <= i < task.stop
      ensures Marked(task.(phase := Returned), s.held, s.quarantine, s.busy, i)
    {
      assert Marked(task, s.held, s.quarantine, s.busy, i);
    }
  }

  lemma HandBackBounds(config: StreamConfig, s: Stream, g: nat)
    requires Bounds(config, s) && g < |s.tasks| && s.tasks[g].phase == Complete && s.tasks[g].start <= s.tasks[g].stop
    ensures Bounds(config, HandBack(s, g))
  {
    OutstandingReturned(s.tasks, g, s.tasks[g].(phase := Returned));
  }

  lemma HandBackSound(config: StreamConfig, s: Stream, g: nat)
    requires Sound(config, s) && g < |s.tasks|
    ensures Sound(config, HandBack(s, g))
  {
    hide Sound, Bounds, Shape, Marks, WholeWaves, HistoryBelow, Books, SameOutside;
    var t, task := HandBack(s, g), s.tasks[g];
    if t != s {
      SoundTask(config, s, g);
      StillQuarantined(config, s);
      OverBounds(config, s.plans, s.cancelled, task);
      HandBackKeepsTask(config, s, task);
      HandBackBounds(config, s, g);
      BooksKept(config, s, t);
      SameIsSameOutside(s, t, task);
      TaskStepSoundFrom(config, s, t, g);
    }
  }

  lemma OverBounds(config: StreamConfig, plans: seq<Plan>, cancelled: bool, task: Task)
    requires Shape(config, plans, cancelled, task)
    ensures task.start < task.stop <= |plans|
  {
    hide Split, GoodWave;
  }

  lemma {:induction false} SplitOnPrefix(config: StreamConfig, plans: seq<Plan>, more: seq<Plan>, history: seq<Wave>, low: nat, high: nat)
    requires Split(config, plans, history, low, high)
    ensures Split(config, plans + more, history, low, high)
  {
    hide RangeFits, GoodWave;
    if history != [] {
      var last := history[|history| - 1];
      SplitOnPrefix(config, plans, more, history[..|history| - 1], low, last.low);
      GoodWaveOnPrefix(config, plans, more, last.low, last.high);
    }
  }

  lemma GoodWaveOnPrefix(config: StreamConfig, plans: seq<Plan>, more: seq<Plan>, low: nat, high: nat)
    requires GoodWave(config, plans, low, high)
    ensures GoodWave(config, plans + more, low, high)
  {
    CreditRangeOnPrefix(map[], plans, more, low, high);
  }

  lemma ShapeOnPrefix(config: StreamConfig, plans: seq<Plan>, more: seq<Plan>, cancelled: bool, task: Task)
    requires Shape(config, plans, cancelled, task)
    ensures Shape(config, plans + more, cancelled, task)
  {
    hide Split, GoodWave;
    if task.waves {
      SplitOnPrefix(config, plans, more, task.history, task.start, task.start + task.offset);
      if BatchSize(task) > 0 {
        GoodWaveOnPrefix(config, plans, more, task.start + task.offset, task.start + task.offset + BatchSize(task));
      }
    }
  }

  lemma SubmittedTask(config: StreamConfig, s: Stream, plans: seq<Plan>, task: Task)
    requires Bounds(config, s) && Books(config, s) && plans != []
    requires task.start == |s.plans| && task.stop == |s.plans| + |plans| && task.phase == Queued
    requires task.offset == 0 && task.results == [] && task.history == []
    ensures Shape(config, s.plans + plans, s.cancelled, task) && Marks(task, s.held, s.quarantine, s.busy)
    ensures HistoryBelow(task.history, task.start, task.start) && WholeWaves(task.history, s.held, s.quarantine)
  {
    HeldAreSubmitted(config, s);
    hide Balanced, GoodWave;
  }

  lemma HeldAreSubmitted(config: StreamConfig, s: Stream)
    requires Books(config, s)
    ensures forall i :: i in s.held || i in s.quarantine ==> i < |s.plans|
  {
    hide Accounts, WithinCapacity, Fits, AllNonNegative;
  }

  lemma SubmitBooks(config: StreamConfig, s: Stream, plans: seq<Plan>, t: Stream)
    requires Books(config, s) && t.plans == s.plans + plans && AllNonNegative(Requirements(plans))
    requires forall i :: 0 <= i < |plans| ==> Fits(map[], config.limits.capacities, plans[i].requirement)
    requires t.reserved == s.reserved && t.quarantined == s.quarantined && t.held == s.held && t.quarantine == s.quarantine
    ensures Books(config, t)
  {
    hide Balanced, Fits;
    assert Kept(s.plans, config.limits.capacities, s.reserved, s.held, s.quarantined, s.quarantine);
    KeptOnPrefix(s.plans, plans, config.limits.capacities, s.reserved, s.held, s.quarantined, s.quarantine);
    forall i | 0 <= i < |t.plans| ensures Requirements(t.plans)[i].NonNegative() {
      if i < |s.plans| {
        assert Requirements(s.plans)[i] == Requirements(t.plans)[i];
      } else {
        assert Requirements(plans)[i - |s.plans|] == Requirements(t.plans)[i];
      }
    }
  }

  lemma SubmitBounds(config: StreamConfig, s: Stream, t: Stream, task: Task)
    requires Bounds(config, s) && t.tasks == s.tasks + [task] && task.start <= task.stop && task.phase == Queued
    requires t.pending == s.pending + task.stop - task.start <= config.maxPending
    requires t.busy == s.busy && t.slots == s.slots && |s.plans| <= |t.plans|
    ensures Bounds(config, t)
  {
    assert t.tasks[..|t.tasks| - 1] == s.tasks;
  }

  lemma SubmitOwners(s: Stream, t: Stream, task: Task)
    requires Owners(s) && t.tasks == s.tasks + [task] && |s.plans| == task.start && |t.plans| == task.stop
    requires task.start <= task.stop
    ensures Owners(t)
  {
    forall i: nat | i < |t.plans| ensures Owned(t.tasks, i) {
      if i < |s.plans| {
        assert Owned(s.tasks, i);
        var g :| 0 <= g < |s.tasks| && s.tasks[g].start <= i < s.tasks[g].stop;
        assert t.tasks[g].start <= i < t.tasks[g].stop;
      } else {
        assert t.tasks[|s.tasks|] == task;
      }
    }
  }

  lemma OldTaskKeeps(config: StreamConfig, s: Stream, t: Stream, plans: seq<Plan>, task: Task)
    requires TaskOk(config, s, task) && t.plans == s.plans + plans && t.cancelled == s.cancelled
    requires t.held == s.held && t.quarantine == s.quarantine && t.busy == s.busy
    ensures TaskOk(config, t, task)
  {
    hide Shape, Marks, WholeWaves, HistoryBelow;
    ShapeOnPrefix(config, s.plans, plans, s.cancelled, task);
  }

  lemma SubmitSound(config: StreamConfig, s: Stream, plans: seq<Plan>, sequence: int)
    requires Sound(config, s) && AllNonNegative(Requirements(plans))
    ensures Sound(config, Submit(config, s, plans, sequence))
  {
    hide CheckSubmission, OwnersAfter, Books, Bounds, Owners, TaskOk;
    var t := Submit(config, s, plans, sequence);
    SidesSound(config, s, s.asleep, t.owners);
    if CheckSubmission(config, s, plans, sequence) == None {
      SubmissionAccepted(config, s, plans, sequence);
      var task := t.tasks[|s.tasks|];
      SubmittedTask(config, s, plans, task);
      SubmitBooks(config, s, plans, t);
      SubmitBounds(config, s, t, task);
      SubmitOwners(s, t, task);
      NewTaskOk(config, t, task);
      forall g | 0 <= g < |t.tasks| ensures TaskOk(config, t, t.tasks[g]) {
        if g < |s.tasks| {
          OldTaskKeeps(config, s, t, plans, s.tasks[g]);
        }
      }
    }
  }

  lemma NewTaskOk(config: StreamConfig, s: Stream, task: Task)
    requires Shape(config, s.plans, s.cancelled, task) && Marks(task, s.held, s.quarantine, s.busy)
    requires HistoryBelow(task.history, task.start, task.start) && WholeWaves(task.history, s.held, s.quarantine)
    requires task.offset == 0
    ensures TaskOk(config, s, task)
  {
    hide Shape, Marks, WholeWaves;
  }

  lemma SubmissionAccepted(config: StreamConfig, s: Stream, plans: seq<Plan>, sequence: int)
    requires CheckSubmission(config, s, plans, sequence) == None
    ensures plans != [] && s.pending + |plans| <= config.maxPending && sequence > s.sequence
    ensures !s.closed && !s.paused
    ensures forall i :: 0 <= i < |plans| ==> Fits(map[], config.limits.capacities, plans[i].requirement)
  {
    hide Fits, Claims, StageTaken;
  }

  // ----- every schedule

  /** Who sleeps, and whom executors belong to, touches no charge, worker or slot. */
  lemma SidesSound(config: StreamConfig, s: Stream, asleep: set<Waiter>, owners: map<Executor, Name>)
    requires Sound(config, s)
    ensures Sound(config, s.(asleep := asleep, owners := owners))
  {
    hide Books, Bounds, Owners, TaskOk;
    var t := s.(asleep := asleep, owners := owners);
    BooksKept(config, s, t);
    SidesBound(config, s, t);
    forall g | 0 <= g < |s.tasks| ensures TaskOk(config, t, s.tasks[g]) {
      OthersKeep(config, s, t, s.tasks[g]);
    }
  }

  lemma SidesBound(config: StreamConfig, s: Stream, t: Stream)
    requires Bounds(config, s) && Owners(s) && t == s.(asleep := t.asleep, owners := t.owners)
    ensures Bounds(config, t) && Owners(t)
  {
  }

  lemma AttemptSound(config: StreamConfig, s: Stream, waiter: Waiter, t: Stream)
    requires Sound(config, s) && Sound(config, t)
    ensures Sound(config, Attempt(s, waiter, t))
  {
    hide Sound;
    SidesSound(config, s, s.asleep + {waiter}, s.owners);
  }

  lemma NotifiedSound(config: StreamConfig, s: Stream, t: Stream)
    requires Sound(config, s) && Sound(config, t)
    ensures Sound(config, Notified(s, t))
  {
    hide Sound;
    SidesSound(config, t, {}, t.owners);
  }

  lemma FlagsSound(config: StreamConfig, s: Stream, paused: bool, closed: bool, cancelled: bool)
    requires Sound(config, s) && (s.cancelled ==> cancelled)
    ensures Sound(config, s.(paused := paused, closed := closed, cancelled := cancelled))
  {
    hide Books, Bounds, Owners, TaskOk;
    var t := s.(paused := paused, closed := closed, cancelled := cancelled);
    BooksKept(config, s, t);
    FlagsBound(config, s, t);
    forall g | 0 <= g < |s.tasks| ensures TaskOk(config, t, s.tasks[g]) {
      OthersKeep(config, s, t, s.tasks[g]);
    }
  }

  lemma FlagsBound(config: StreamConfig, s: Stream, t: Stream)
    requires Bounds(config, s) && t == s.(paused := t.paused, closed := t.closed, cancelled := t.cancelled)
    ensures Bounds(config, t)
    ensures Owners(s) ==> Owners(t)
  {
  }

  ghost predicate GoodEvent(event: Event) {
    event.Submission? ==> AllNonNegative(Requirements(event.plans))
  }

  /** Every event of every interleaving keeps the invariants. */
  lemma StepSound(config: StreamConfig, s: Stream, event: Event)
    requires Sound(config, s) && GoodEvent(event)
    ensures Sound(config, Step(config, s, event))
  {
    hide Sound, Submit, Enter, Choose, Reserve, Admitted, Start, Grant, Finish, Gathered, Settle, HandBack, AllReturned;
    hide Attempt, Notified;
    match event
    case Submission(plans, sequence) => SubmitSound(config, s, plans, sequence);
    case Entering(g) => if g < |s.tasks| { EnterSound(config, s, g); }
    case LoopHead(g) => if g < |s.tasks| { ChooseSound(config, s, g); }
    case Reserved(g) =>
      if g < |s.tasks| {
        ReserveSound(config, s, g);
        AttemptSound(config, s, OfWave(g), Reserve(config, s, g));
      }
    case HookReturned(g, ok) => if g < |s.tasks| { AdmittedSound(config, s, g, ok); }
    case Started(g, k) => StartSound(config, s, g, k);
    case Granted(g, k) =>
      GrantSound(config, s, g, k);
      AttemptSound(config, s, OfPlan(g, k), Grant(config, s, g, k));
    case Finished(g, k, outcome) =>
      FinishSound(config, s, g, k, outcome);
      NotifiedSound(config, s, Finish(s, g, k, outcome));
    case BatchEnded(g, uncertain) => if g < |s.tasks| { GatheredSound(config, s, g, uncertain); }
    case Settled(g) =>
      if g < |s.tasks| {
        SettleSound(config, s, g);
        NotifiedSound(config, s, Settle(s, g));
      }
    case Handed(g) => if g < |s.tasks| { HandBackSound(config, s, g); }
    case Cancellation => FlagsSound(config, s, s.paused, s.closed, true);
    case Pausing =>
      FlagsSound(config, s, true, s.closed, s.cancelled);
      SidesSound(config, s.(paused := true), {}, s.owners);
    case Resuming => FlagsSound(config, s, false, s.closed, s.cancelled);
    case Closing =>
      FlagsSound(config, s, true, true, s.cancelled);
      SidesSound(config, s.(paused := true, closed := true), {}, s.owners);
  }

  ghost predicate GoodEvents(events: seq<Event>) {
    forall k :: 0 <= k < |events| ==> GoodEvent(events[k])
  }

  lemma OpenedSound(config: StreamConfig)
    requires config.Valid()
    ensures Sound(config, Opened())
  {
    NothingReserved(config.limits, []);
  }

  lemma {:induction false} ExecuteSound(config: StreamConfig, events: seq<Event>)
    requires config.Valid() && GoodEvents(events)
    ensures Sound(config, Execute(config, events))
  {
    hide Sound, Step, GoodEvent;
    if events == [] {
      OpenedSound(config);
    } else {
      ExecuteSound(config, events[..|events| - 1]);
      StepSound(config, Execute(config, events[..|events| - 1]), events[|events| - 1]);
    }
  }
}
