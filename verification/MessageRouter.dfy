/** The router actor's own fields and methods; each is one step of `Router`. */
module MessageRouterModel {
  import opened Router

  class MessageRouter {
    var outbox: map<Id, Status>
    var timeouts: map<Id, nat>
    var timers: seq<Timer>
    /** Sends suspended in the radio. */
    ghost var sending: multiset<Id>
    /** What the entries say of rerouting, and the reroutes under way. */
    ghost var reroute: Reroute
    /** Every call, resumption and timer event so far. */
    ghost var trace: seq<Event>

    ghost function View(): State
      reads this
    {
      State(outbox, timeouts, timers, sending, reroute)
    }

    /** Every slot names a timer that was made. */
    ghost predicate InRange()
      reads this
    {
      forall id :: id in timeouts ==> timeouts[id] < |timers|
    }

    /** The actor is where the machine is after the trace. */
    ghost predicate Valid()
      reads this
    {
      Runs(Start, trace) && View() == Run(Start, trace) && Inv(View())
    }

    constructor ()
      ensures Valid() && trace == []
    {
      outbox, timeouts, timers := map[], map[], [];
      sending, reroute, trace := multiset{}, NO_REROUTE, [];
    }

    /** The run goes on by one step. */
    lemma Extends(s: State, es: seq<Event>, e: Event)
      requires Runs(Start, es) && s == Run(Start, es) && Inv(s) && Enabled(s, e)
      ensures Runs(Start, es + [e]) && Run(Start, es + [e]) == Step(s, e) && Inv(Step(s, e))
    {
      RunSnoc(Start, es, e);
      StepKeeps(s, e);
    }

    method Cancel(id: Id)
      requires InRange()
      modifies this`outbox, this`timeouts, this`timers
      ensures InRange() && View() == CancelTimeout(old(View()), id)
    {
      if id in timeouts {
        timers := timers[timeouts[id] := timers[timeouts[id]].(cancelled := true)];
      }
      timeouts := timeouts - {id};
    }

    method SetStatus(id: Id, status: Status)
      requires InRange()
      modifies this`outbox, this`timeouts, this`timers
      ensures InRange() && View() == Update(old(View()), id, status)
    {
      if id in outbox {
        outbox := outbox[id := status];
      }
      if status.Terminal() {
        Cancel(id);
      }
    }

    method ArmTimeout(id: Id)
      requires InRange()
      modifies this`outbox, this`timeouts, this`timers
      ensures InRange() && View() == Arm(old(View()), id)
    {
      Cancel(id);
      timeouts := timeouts[id := |timers|];
      timers := timers + [Timer(id, Sleeping, false)];
    }

    /** `send` up to its suspension, for a tracked message. */
    method BeginSend(id: Id)
      requires Valid()
      modifies this
      ensures Valid() && View() == Step(old(View()), SendBegin(id))
      ensures trace == old(trace) + [SendBegin(id)]
    {
      Extends(View(), trace, SendBegin(id));
      trace := trace + [SendBegin(id)];
      outbox := outbox[id := Sent];
      sending := sending + multiset{id};
      reroute := Enveloped(reroute, id);
    }

    /** `send` from its suspension on. */
    method EndSend(id: Id, outcome: Status)
      requires Valid() && Enabled(View(), SendEnd(id, outcome))
      modifies this
      ensures Valid() && View() == Step(old(View()), SendEnd(id, outcome))
      ensures trace == old(trace) + [SendEnd(id, outcome)]
    {
      Extends(View(), trace, SendEnd(id, outcome));
      trace := trace + [SendEnd(id, outcome)];
      sending := sending - multiset{id};
      SetStatus(id, outcome);
      if outcome == Sent {
        ArmTimeout(id);
      }
    }

    method BeginTracking(id: Id)
      requires Valid()
      modifies this
      ensures Valid() && View() == Step(old(View()), Event.BeginTracking(id))
      ensures trace == old(trace) + [Event.BeginTracking(id)]
    {
      Extends(View(), trace, Event.BeginTracking(id));
      trace := trace + [Event.BeginTracking(id)];
      if id !in outbox {
        outbox := outbox[id := Sent];
      }
    }

    method StartDeliveryTimeout(id: Id)
      requires Valid()
      modifies this
      ensures Valid() && View() == Step(old(View()), StartTimeout(id))
      ensures trace == old(trace) + [StartTimeout(id)]
    {
      Extends(View(), trace, StartTimeout(id));
      trace := trace + [StartTimeout(id)];
      if id in outbox && !outbox[id].Terminal() && outbox[id] != Cast {
        ArmTimeout(id);
      }
    }

    method ExtendTimeout(id: Id)
      requires Valid()
      modifies this
      ensures Valid() && View() == Step(old(View()), Event.ExtendTimeout(id))
      ensures trace == old(trace) + [Event.ExtendTimeout(id)]
    {
      Extends(View(), trace, Event.ExtendTimeout(id));
      trace := trace + [Event.ExtendTimeout(id)];
      if id in outbox && !outbox[id].Terminal() && outbox[id] != Cast {
        ArmTimeout(id);
      }
    }

    method MarkFindingPath(id: Id)
      requires Valid()
      modifies this
      ensures Valid() && View() == Step(old(View()), Event.MarkFindingPath(id))
      ensures trace == old(trace) + [Event.MarkFindingPath(id)]
    {
      Extends(View(), trace, Event.MarkFindingPath(id));
      trace := trace + [Event.MarkFindingPath(id)];
      if id in outbox {
        SetStatus(id, FindingPath);
      }
    }

    method ConfirmDelivery(id: Id, hops: int)
      requires Valid()
      modifies this
      ensures Valid() && View() == Step(old(View()), Event.ConfirmDelivery(id, hops))
      ensures trace == old(trace) + [Event.ConfirmDelivery(id, hops)]
    {
      Extends(View(), trace, Event.ConfirmDelivery(id, hops));
      trace := trace + [Event.ConfirmDelivery(id, hops)];
      if id in outbox {
        SetStatus(id, if hops <= 0 then Delivered else Relayed(hops));
      }
    }

    method ConfirmFailure(id: Id)
      requires Valid()
      modifies this
      ensures Valid() && View() == Step(old(View()), Event.ConfirmFailure(id))
      ensures trace == old(trace) + [Event.ConfirmFailure(id)]
    {
      Extends(View(), trace, Event.ConfirmFailure(id));
      trace := trace + [Event.ConfirmFailure(id)];
      if id in outbox {
        SetStatus(id, NotDelivered);
      }
    }

    method CommitToRelay(id: Id)
      requires Valid()
      modifies this
      ensures Valid() && View() == Step(old(View()), Event.CommitToRelay(id))
      ensures trace == old(trace) + [Event.CommitToRelay(id)]
    {
      Extends(View(), trace, Event.CommitToRelay(id));
      trace := trace + [Event.CommitToRelay(id)];
      if id in outbox {
        SetStatus(id, Cast);
        Cancel(id);
      }
    }

    /** `rerouteToNostr` takes its snapshot. */
    method StartReroute(ids: set<Id>)
      requires Valid() && Enabled(View(), RerouteStart(ids))
      modifies this
      ensures Valid() && View() == Step(old(View()), RerouteStart(ids))
      ensures trace == old(trace) + [RerouteStart(ids)]
    {
      Extends(View(), trace, RerouteStart(ids));
      trace := trace + [RerouteStart(ids)];
      reroute := Router.StartReroute(reroute, ids);
    }

    /** The loop reaches an entry of its snapshot, flags it and suspends in the relay. */
    method BeginReroute(id: Id)
      requires Valid() && Enabled(View(), RerouteBegin(id))
      modifies this
      ensures Valid() && View() == Step(old(View()), RerouteBegin(id))
      ensures trace == old(trace) + [RerouteBegin(id)]
    {
      Extends(View(), trace, RerouteBegin(id));
      trace := trace + [RerouteBegin(id)];
      reroute := Router.BeginReroute(reroute, id);
    }

    /** The relay answered: commit without looking at the entry again. */
    method EndReroute(id: Id, cast: bool)
      requires Valid() && Enabled(View(), RerouteEnd(id, cast))
      modifies this
      ensures Valid() && View() == Step(old(View()), RerouteEnd(id, cast))
      ensures trace == old(trace) + [RerouteEnd(id, cast)]
    {
      Extends(View(), trace, RerouteEnd(id, cast));
      trace := trace + [RerouteEnd(id, cast)];
      reroute := Router.EndReroute(reroute, id);
      if cast && id in outbox {
        SetStatus(id, Cast);
        Cancel(id);
      }
    }

    /** The timer task's own check after its sleep. */
    method Wake(t: nat)
      requires Valid() && Enabled(View(), TimerWakes(t))
      modifies this
      ensures Valid() && View() == Step(old(View()), TimerWakes(t))
      ensures trace == old(trace) + [TimerWakes(t)]
    {
      Extends(View(), trace, TimerWakes(t));
      trace := trace + [TimerWakes(t)];
      timers := timers[t := timers[t].(phase := if timers[t].cancelled then Done else Due)];
    }

    method TimeoutFired(t: nat)
      requires Valid() && Enabled(View(), TimerFires(t))
      modifies this
      ensures Valid() && View() == Step(old(View()), TimerFires(t))
      ensures trace == old(trace) + [TimerFires(t)]
    {
      Extends(View(), trace, TimerFires(t));
      trace := trace + [TimerFires(t)];
      var id := timers[t].id;
      timers := timers[t := timers[t].(phase := Done)];
      timeouts := timeouts - {id};
      if id in outbox && !outbox[id].Terminal() {
        SetStatus(id, NotDelivered);
      }
    }
  }
}
