/** The benchmark training provider's fields, and the assembler of its groups. */
module Activation {
  import opened Wrappers
  import Spec = ActivationSpec
  import T = ActivationTheorems

  class Provider {
    const bound: nat
    var producer: Spec.Producer
    var control: Spec.Control
    var active: bool
    var paused: bool
    var closing: bool
    var streamPaused: bool
    var cancelled: bool
    var error: bool
    var timedOut: bool
    var ready: bool
    var policy: nat
    var acknowledged: nat
    var nextGroup: nat
    var committed: nat
    var retained: map<nat, Spec.Packet>
    ghost var installed: seq<nat>
    ghost var drains: nat
    ghost var spent: nat

    ghost function S(): Spec.Provider
      reads this
    {
      Spec.Provider(producer, control, active, paused, closing, streamPaused, cancelled, error, timedOut, ready,
                    policy, acknowledged, nextGroup, committed, retained, installed, drains, spent)
    }

    constructor (bound: nat, policy: nat, committed: nat, nextGroup: nat, retained: map<nat, Spec.Packet>)
      ensures this.bound == bound && S() == Spec.Started(policy, committed, nextGroup, retained)
    {
      this.bound, this.policy, this.committed, this.nextGroup, this.retained := bound, policy, committed, nextGroup, retained;
      producer, control, acknowledged := Spec.Waiting, Spec.Free, policy;
      active, paused, closing, streamPaused, cancelled := false, false, false, false, false;
      error, timedOut, ready := false, false, false;
      installed, drains, spent := [policy], 0, 0;
    }

    method Lease()
      modifies this`producer, this`active
      ensures S() == Spec.Lease(old(S()), bound)
    {
      if producer == Spec.Waiting && !paused && !closing && |retained| < bound {
        producer, active := Spec.Planning(policy), true;
      }
    }

    method Fail()
      modifies this`producer, this`error, this`paused, this`active
      ensures S() == Spec.ProducerFails(old(S()))
    {
      producer, error, paused, active := Spec.Failed, true, true, false;
    }

    method Planned(registered: nat, wellFormed: bool)
      modifies this`producer, this`error, this`paused, this`active, this`nextGroup
      ensures S() == Spec.Planned(old(S()), registered, wellFormed)
    {
      if !producer.Planning? {
        return;
      }
      if !wellFormed || registered != policy {
        Fail();
      } else {
        producer, nextGroup := Spec.Executing(nextGroup, registered), nextGroup + 1;
      }
    }

    method Completed(ok: bool, excluded: bool)
      modifies this`producer, this`error, this`paused, this`active, this`retained
      ensures S() == Spec.Completed(old(S()), ok, excluded)
    {
      if !producer.Executing? {
        return;
      }
      if !ok {
        Fail();
        return;
      }
      retained := retained[producer.id := Spec.Packet(producer.registered, acknowledged, excluded, false)];
      producer, active := Spec.Waiting, false;
      if cancelled {
        paused := true;
      }
    }

    method BeginPause()
      modifies this`control, this`ready, this`paused
      ensures S() == Spec.BeginPause(old(S()))
    {
      if control == Spec.Free {
        control, ready, paused := Spec.Draining, false, true;
      }
    }

    method Drained()
      modifies this`control, this`streamPaused
      ensures S() == Spec.Drained(old(S()))
    {
      if control == Spec.Draining && !active {
        control, streamPaused := Spec.ProvingDrain, true;
      }
    }

    method PauseEnds(proven: bool) returns (snapshot: Option<Spec.Snapshot>)
      modifies this`control
      ensures (S(), snapshot) == Spec.PauseEnds(old(S()), proven)
    {
      if control != Spec.ProvingDrain {
        return None;
      }
      if !proven || error || active || cancelled || timedOut {
        control := Spec.Free;
        return None;
      }
      control := Spec.Granting;
      return Some(Spec.Snapshot(nextGroup, committed, retained));
    }

    method BeginActivation(version: nat)
      modifies this`control, this`ready, this`policy, this`spent
      ensures S() == Spec.BeginActivation(old(S()), version)
    {
      if control != Spec.Free || !ready {
        return;
      }
      ready, spent := false, spent + 1;
      if closing || !paused || active || !streamPaused || error || cancelled || version <= policy {
        return;
      }
      control, policy := Spec.Activating(policy), version;
    }

    method ActivationEnds(ack: bool) returns (ok: bool)
      modifies this`control, this`policy, this`error
      ensures (S(), ok) == Spec.ActivationEnds(old(S()), ack)
    {
      if !control.Activating? {
        return false;
      }
      if !ack || timedOut {
        policy, error := control.prior, true;
        control := Spec.Free;
        return false;
      }
      control := Spec.Adopting;
      return true;
    }

    method BeginResume()
      modifies this`control
      ensures S() == Spec.BeginResume(old(S()))
    {
      if control == Spec.Free && !closing && !error && !timedOut {
        control := Spec.Resuming;
      }
    }

    method ResumeEnds(ack: bool) returns (ok: bool)
      modifies this`control
      ensures (S(), ok) == Spec.ResumeEnds(old(S()), ack)
    {
      if control != Spec.Resuming {
        return false;
      }
      if !ack || timedOut || cancelled {
        control := Spec.Free;
        return false;
      }
      control := Spec.Reopening;
      return true;
    }

    /** What a call writes after its last test. */
    method Write()
      requires Spec.Writing(S())
      modifies this`control, this`ready, this`drains, this`acknowledged, this`installed, this`streamPaused, this`paused
      ensures S() == Spec.Written(old(S()))
    {
      hide Spec.Written;
      if control == Spec.Granting {
        Grant();
      } else if control == Spec.Adopting {
        Adopt();
      } else {
        Reopen();
      }
    }

    method Grant()
      requires control == Spec.Granting
      modifies this`control, this`ready, this`drains
      ensures S() == Spec.Written(old(S()))
    {
      ready, drains, control := true, drains + 1, Spec.Free;
    }

    method Adopt()
      requires control == Spec.Adopting
      modifies this`control, this`acknowledged, this`installed
      ensures S() == Spec.Written(old(S()))
    {
      acknowledged, installed, control := policy, installed + [policy], Spec.Free;
    }

    method Reopen()
      requires control == Spec.Reopening
      modifies this`control, this`streamPaused, this`ready, this`paused
      ensures S() == Spec.Written(old(S()))
    {
      streamPaused, ready, paused, control := false, false, false, Spec.Free;
    }

    method Get()
      modifies this`retained
      ensures S() == Spec.Get(old(S()))
    {
      var id := 0;
      while id < nextGroup
        invariant id <= nextGroup && retained == old(retained)
        invariant Spec.OldestUndelivered(retained, 0, nextGroup) == Spec.OldestUndelivered(retained, id, nextGroup)
      {
        if id in retained && !retained[id].delivered {
          retained := retained[id := retained[id].(delivered := true)];
          return;
        }
        id := id + 1;
      }
    }

    method Commit(stop: nat, consumed: set<nat>)
      modifies this`committed, this`retained
      ensures S() == Spec.Commit(old(S()), stop, consumed)
    {
      if stop < committed || nextGroup < stop || exists id :: id in consumed && !(committed <= id < stop) {
        return;
      }
      for id := committed to stop
        invariant forall i: nat :: committed <= i < id ==>
                    i in retained && retained[i].delivered && (i in consumed ==> !retained[i].excluded)
        invariant S() == old(S())
      {
        if id !in retained || !retained[id].delivered || (id in consumed && retained[id].excluded) {
          return;
        }
      }
      committed, retained := stop, map id | id in retained && stop <= id :: retained[id];
    }

    method GiveUp()
      modifies this`timedOut, this`paused, this`ready, this`error
      ensures S() == Spec.TimeOut(old(S()))
    {
      timedOut, paused, ready, error := true, true, false, true;
    }

    method Flag(event: Spec.Event)
      requires (event.StreamCancelled? || event.CloseAsked?) && !Spec.Writing(S())
      modifies this`cancelled, this`closing, this`paused
      ensures S() == Spec.Next(old(S()), bound, event)
    {
      if event.StreamCancelled? {
        cancelled := true;
      } else {
        closing, paused := true, true;
      }
    }

    method Next(event: Spec.Event)
      modifies this
      ensures S() == Spec.Next(old(S()), bound, event)
    {
      hide Spec.Lease, Spec.Planned, Spec.Completed, Spec.BeginPause, Spec.Drained, Spec.PauseEnds, Spec.Get, Spec.Commit;
      hide Spec.BeginActivation, Spec.ActivationEnds, Spec.BeginResume, Spec.ResumeEnds, Spec.TimeOut, Spec.Written;
      if (control == Spec.Granting || control == Spec.Adopting || control == Spec.Reopening)
        && event != Spec.CallerGaveUp && event != Spec.CallWrites
      {
        return;
      }
      match event
      case Leased => Lease();
      case PlansReady(registered, wellFormed) => Planned(registered, wellFormed);
      case GroupEnded(ok, excluded) => Completed(ok, excluded);
      case PauseAsked => BeginPause();
      case DrainObserved => Drained();
      case ControllerPaused(proven) => var snapshot := PauseEnds(proven);
      case ActivateAsked(version) => BeginActivation(version);
      case ControllerActivated(ack) => var ok := ActivationEnds(ack);
      case ResumeAsked => BeginResume();
      case ControllerResumed(ack) => var ok := ResumeEnds(ack);
      case CallWrites =>
        if control == Spec.Granting || control == Spec.Adopting || control == Spec.Reopening {
          Write();
        } else {
          T.NothingToWrite(S());
        }
      case CallerGaveUp => GiveUp();
      case StreamCancelled => Flag(event);
      case CloseAsked => Flag(event);
      case PacketTaken => Get();
      case GroupsCommitted(stop, consumed) => Commit(stop, consumed);
    }
  }

  /** Any interleaving of the producer and the control calls, from any gap-free mailbox. */
  method Run(initial: Spec.Provider, bound: nat, events: seq<Spec.Event>) returns (provider: Provider)
    requires T.GoodStart(initial, bound)
    ensures fresh(provider) && provider.S() == Spec.Run(initial, bound, events) && T.Sound(provider.S(), bound)
  {
    hide T.Sound, Spec.Next, T.Cursors, T.OnePolicy;
    provider := new Provider(bound, initial.policy, initial.committed, initial.nextGroup, initial.retained);
    assert events[..0] == [];
    for k := 0 to |events|
      invariant fresh(provider) && provider.bound == bound && provider.S() == Spec.Run(initial, bound, events[..k])
    {
      assert events[..k + 1][..k] == events[..k];
      provider.Next(events[k]);
    }
    assert events[..|events|] == events;
    T.RunSound(initial, bound, events);
  }
}
