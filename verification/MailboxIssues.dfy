/** Which group ids the manager gives out again: ids are unique within an epoch, and a restart repeats exactly those
    from the saved cursor up to the highest one the run has reached. */
module MailboxIssues {
  import opened Wrappers
  import opened MailboxSpec
  import opened MailboxTheorems

  /** One more than the highest id ever issued. */
  function High(issued: seq<Issue>): (high: nat)
    ensures forall k :: 0 <= k < |issued| ==> issued[k].id < high
  {
    if issued == [] then 0
    else
      var front, id := High(issued[..|issued| - 1]), issued[|issued| - 1].id;
      if front > id then front else id + 1
  }

  predicate IssuedBefore(issued: seq<Issue>, id: nat) {
    exists k :: 0 <= k < |issued| && issued[k].id == id
  }

  /** No id is ever left out, and no cursor, live or saved, is ahead of the ids issued. */
  ghost predicate Dense(issued: seq<Issue>, next: nat, checkpoint: Option<Checkpoint>) {
    && next <= High(issued)
    && (checkpoint.Some? ==> checkpoint.value.snapshot.nextGroup <= High(issued))
    && forall id: nat :: id < High(issued) ==> IssuedBefore(issued, id)
  }

  ghost predicate DenseIn(w: World) {
    Dense(w.manager.issued, w.manager.nextGroup, w.checkpoint)
  }

  lemma IssueIsDense(issued: seq<Issue>, epoch: nat, next: nat, checkpoint: Option<Checkpoint>)
    requires Dense(issued, next, checkpoint)
    ensures Dense(issued + [Issue(epoch, next)], next + 1, checkpoint)
    ensures High(issued + [Issue(epoch, next)]) == if next < High(issued) then High(issued) else next + 1
  {
    var more := issued + [Issue(epoch, next)];
    assert more[..|issued|] == issued;
    forall id: nat | id < High(more) ensures IssuedBefore(more, id) {
      if id < High(issued) {
        assert IssuedBefore(issued, id);
        var k :| 0 <= k < |issued| && issued[k].id == id;
        assert more[k].id == id;
      } else {
        assert more[|issued|].id == id;
      }
    }
  }

  lemma DispatchIsDense(config: Config, w: World)
    requires DenseIn(w)
    ensures DenseIn(w.(manager := Dispatch(config, w.manager)))
    ensures w.manager.nextGroup == High(w.manager.issued) ==>
              var m := Dispatch(config, w.manager); m.nextGroup == High(m.issued)
  {
    hide Dense, High;
    IssueIsDense(w.manager.issued, w.manager.epoch, w.manager.nextGroup, w.checkpoint);
  }

  /** What the other events of the run leave as it is. */
  ghost predicate SameIssues(w: World, t: World) {
    && t.manager.issued == w.manager.issued && t.manager.nextGroup == w.manager.nextGroup
    && (t.checkpoint == w.checkpoint
        || (t.checkpoint.Some? && t.checkpoint.value.snapshot.nextGroup == w.manager.nextGroup))
  }

  lemma ReceiveSameIssues(config: Config, w: World)
    ensures SameIssues(w, Receive(config, w))
  {
    hide Accepts, Without, OldestUndelivered;
  }

  lemma TrainSameIssues(w: World)
    ensures SameIssues(w, Train(w))
  {
    hide Accepts, Without;
  }

  lemma NextIsDense(config: Config, w: World, event: Event)
    requires DenseIn(w)
    ensures DenseIn(Next(config, w, event))
    ensures event != Restarted && w.manager.nextGroup == High(w.manager.issued) ==>
              var m := Next(config, w, event).manager; m.nextGroup == High(m.issued)
  {
    hide High, Receive, Train, Restorable, Dispatch, IssuedBefore;
    if w.failure.None? {
      match event
      case Dispatched => DispatchIsDense(config, w);
      case GroupSampled(_) =>
      case Received => ReceiveSameIssues(config, w);
      case PauseAsked =>
      case Trained => TrainSameIssues(w);
      case Restarted =>
    }
  }

  lemma {:induction false} RunIsDense(config: Config, events: seq<Event>)
    ensures DenseIn(Run(config, events))
    ensures (forall k :: 0 <= k < |events| ==> events[k] != Restarted) ==>
              var m := Run(config, events).manager; m.nextGroup == High(m.issued)
  {
    hide DenseIn, Next, High;
    if events == [] {
      NothingIssued();
    } else {
      RunIsDense(config, events[..|events| - 1]);
      NextIsDense(config, Run(config, events[..|events| - 1]), events[|events| - 1]);
    }
  }

  lemma NothingIssued()
    ensures DenseIn(Start()) && High(Start().manager.issued) == 0 == Start().manager.nextGroup
  {
  }

  // ----- in terms of cursors

  /** The cursor a restart goes back to. */
  function SavedCursor(checkpoint: Option<Checkpoint>): nat {
    match checkpoint
    case None => 0
    case Some(c) => c.snapshot.nextGroup
  }

  function Higher(a: nat, b: nat): nat {
    if a > b then a else b
  }

  /** The highest cursor the manager has had at any time of the run. */
  function Peak(config: Config, events: seq<Event>): nat {
    if events == [] then 0 else Higher(Peak(config, events[..|events| - 1]), Run(config, events).manager.nextGroup)
  }

  lemma NextIsHigher(config: Config, w: World, event: Event)
    requires DenseIn(w)
    ensures var m := Next(config, w, event).manager; High(m.issued) == Higher(High(w.manager.issued), m.nextGroup)
  {
    hide High, Receive, Train, Restorable, Dispatch, IssuedBefore;
    if w.failure.None? {
      match event
      case Dispatched => DispatchIsHigher(config, w);
      case GroupSampled(_) =>
      case Received => ReceiveSameIssues(config, w);
      case PauseAsked =>
      case Trained => TrainSameIssues(w);
      case Restarted =>
    }
  }

  lemma DispatchIsHigher(config: Config, w: World)
    requires DenseIn(w)
    ensures var m := Dispatch(config, w.manager); High(m.issued) == Higher(High(w.manager.issued), m.nextGroup)
  {
    hide High, IssuedBefore;
    IssueIsDense(w.manager.issued, w.manager.epoch, w.manager.nextGroup, w.checkpoint);
  }

  lemma {:induction false} HighIsPeak(config: Config, events: seq<Event>)
    ensures High(Run(config, events).manager.issued) == Peak(config, events)
  {
    hide DenseIn, Next, High;
    if events == [] {
      NothingIssued();
    } else {
      HighIsPeak(config, events[..|events| - 1]);
      RunIsDense(config, events[..|events| - 1]);
      NextIsHigher(config, Run(config, events[..|events| - 1]), events[|events| - 1]);
    }
  }

  /** The next id is one given out before exactly if the cursor has been further on. */
  lemma IssuedAgainIff(config: Config, events: seq<Event>)
    ensures var m := Run(config, events).manager;
            IssuedBefore(m.issued, m.nextGroup) <==> m.nextGroup < Peak(config, events)
  {
    hide Run, Peak;
    RunIsDense(config, events);
    HighIsPeak(config, events);
  }

  /** Without a restart no id is ever given out twice. */
  lemma NeverWithoutRestart(config: Config, events: seq<Event>)
    requires forall k :: 0 <= k < |events| ==> events[k] != Restarted
    ensures var m := Run(config, events).manager; !IssuedBefore(m.issued, m.nextGroup) && m.nextGroup == Peak(config, events)
  {
    hide Run, Peak;
    RunIsDense(config, events);
    HighIsPeak(config, events);
    IssuedAgainIff(config, events);
  }

  /** A restart gives out again exactly the ids from the saved cursor up to the highest one reached, after however
      many restarts. */
  lemma RestartRepeats(config: Config, events: seq<Event>)
    requires config.Valid() && Run(config, events).failure == None
    ensures var w, t := Run(config, events), Run(config, events + [Restarted]);
            && t.failure == None && t.manager.nextGroup == SavedCursor(w.checkpoint)
            && forall id: nat :: t.manager.nextGroup <= id ==>
                 (IssuedBefore(t.manager.issued, id) <==> id < Peak(config, events))
  {
    hide Run, Peak, Next, Running, DenseIn, IssuedBefore, High;
    var w := Run(config, events);
    RunIsSafe(config, events);
    RunIsDense(config, events);
    HighIsPeak(config, events);
    RunStep(config, events, Restarted);
    Restarting(config, w);
    forall id: nat ensures IssuedBefore(w.manager.issued, id) <==> id < Peak(config, events) {
      BeforeIsBelow(w, id);
    }
  }

  lemma BeforeIsBelow(w: World, id: nat)
    requires DenseIn(w)
    ensures IssuedBefore(w.manager.issued, id) <==> id < High(w.manager.issued)
  {
  }

  lemma Restarting(config: Config, w: World)
    requires Running(config, w) && w.failure == None
    ensures var t := Next(config, w, Restarted);
            t.failure == None && t.manager.nextGroup == SavedCursor(w.checkpoint) && t.manager.issued == w.manager.issued
  {
    hide Running, Restorable, Undelivered;
    RestartRuns(config, w);
  }

  /** So the first restart of a run repeats no id exactly if no group was started since the last checkpoint. */
  lemma FirstRestartRepeatsNothingIff(config: Config, events: seq<Event>)
    requires config.Valid() && Run(config, events).failure == None
    requires forall k :: 0 <= k < |events| ==> events[k] != Restarted
    ensures var w, m := Run(config, events), Run(config, events + [Restarted]).manager;
            (forall id: nat :: m.nextGroup <= id ==> !IssuedBefore(m.issued, id)) <==>
              w.manager.nextGroup == SavedCursor(w.checkpoint)
  {
    hide Run, Peak, IssuedBefore;
    var w, m := Run(config, events), Run(config, events + [Restarted]).manager;
    RestartRepeats(config, events);
    NeverWithoutRestart(config, events);
    SavedBehind(config, events);
    if w.manager.nextGroup != SavedCursor(w.checkpoint) {
      assert IssuedBefore(m.issued, m.nextGroup);
    }
  }

  lemma SavedBehind(config: Config, events: seq<Event>)
    ensures SavedCursor(Run(config, events).checkpoint) <= Peak(config, events)
  {
    hide Run, Peak, High, IssuedBefore;
    RunIsDense(config, events);
    HighIsPeak(config, events);
  }

  /** With one it can be: a group is sampled, everything stops before any checkpoint, and its id is issued again. */
  lemma RestartIssuesAgain()
    ensures Run(Config(1, 1, 0), [Dispatched, Restarted, Dispatched]).manager.issued == [Issue(0, 0), Issue(1, 0)]
  {
    var config := Config(1, 1, 0);
    var all := [Dispatched, Restarted, Dispatched];
    assert all[..2] == [Dispatched, Restarted] && all[..2][..1] == [Dispatched] && all[..2][..1][..0] == [];
    assert Run(config, [Dispatched]) == Next(config, Start(), Dispatched);
    assert Run(config, [Dispatched, Restarted]) == Next(config, Run(config, [Dispatched]), Restarted);
  }
}
