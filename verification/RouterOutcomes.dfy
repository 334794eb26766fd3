/** What the router's calls do to a message's status and timer, and what becomes of a send, from any reachable state. */
module RouterOutcomes {
  import opened Router

  // ----- Timers -----

  /** The slot's timer, if any, is cancelled and the slot empty; nothing else changes. */
  ghost predicate Disarms(s: State, s': State, id: Id) {
    && id !in s'.slot && (forall q :: q != id ==> (q in s'.slot <==> q in s.slot))
    && (forall q :: q != id && q in s.slot ==> s'.slot[q] == s.slot[q])
    && |s'.timers| == |s.timers|
    && forall u :: 0 <= u < |s.timers| ==>
        s'.timers[u] == if id in s.slot && s.slot[id] == u then Timer(s.timers[u].id, s.timers[u].phase, true) else s.timers[u]
  }

  /** The slot's timer, if any, is cancelled, and a new one sleeps in its place. */
  ghost predicate Arms(s: State, s': State, id: Id) {
    && id in s'.slot && s'.slot[id] == |s.timers| && (forall q :: q != id ==> (q in s'.slot <==> q in s.slot))
    && (forall q :: q != id && q in s.slot ==> s'.slot[q] == s.slot[q])
    && |s'.timers| == |s.timers| + 1 && s'.timers[|s.timers|] == Timer(id, Sleeping, false)
    && forall u :: 0 <= u < |s.timers| ==>
        s'.timers[u] == if id in s.slot && s.slot[id] == u then Timer(s.timers[u].id, s.timers[u].phase, true) else s.timers[u]
  }

  predicate SameTimers(s: State, s': State) { s'.slot == s.slot && s'.timers == s.timers }

  lemma CancelDisarms(s: State, id: Id)
    requires Inv(s)
    ensures Disarms(s, CancelTimeout(s, id), id)
  {
  }

  lemma ArmArms(s: State, id: Id)
    requires Inv(s)
    ensures Arms(s, Arm(s, id), id)
  {
    CancelDisarms(s, id);
  }

  /**
   A timeout is started or extended exactly for a message tracked as sent, waiting for range
   or finding its path: a new timer sleeps in its slot and the old one is cancelled. For any
   other message nothing changes.
   */
  lemma TimeoutsArmExactly(s: State, e: Event, id: Id)
    requires Inv(s) && (e == StartTimeout(id) || e == ExtendTimeout(id))
    ensures var s' := Step(s, e);
      if id in s.outbox && (s.outbox[id].Sent? || s.outbox[id].WaitingForRange? || s.outbox[id].FindingPath?)
      then Arms(s, s', id) && s' == s.(slot := s'.slot, timers := s'.timers)
      else s' == s
  {
    ArmArms(s, id);
  }

  // ----- Acknowledgements -----

  /** An ack ends a tracked message, delivered or relayed by its hops, and cancels its timer. */
  lemma AckSettles(s: State, id: Id, hops: int)
    requires Inv(s)
    ensures var s' := Step(s, ConfirmDelivery(id, hops));
      if id in s.outbox
      then s'.outbox == s.outbox[id := if hops <= 0 then Delivered else Relayed(hops)] && Disarms(s, s', id)
      else s' == s
  {
    if id in s.outbox {
      var status := if hops <= 0 then Delivered else Relayed(hops);
      CancelDisarms(s.(outbox := s.outbox[id := status]), id);
    }
  }

  lemma FailureSettles(s: State, id: Id)
    requires Inv(s)
    ensures var s' := Step(s, ConfirmFailure(id));
      if id in s.outbox then s'.outbox == s.outbox[id := NotDelivered] && Disarms(s, s', id) else s' == s
  {
    if id in s.outbox {
      CancelDisarms(s.(outbox := s.outbox[id := NotDelivered]), id);
    }
  }

  /** The relay takes a tracked message: cast, its timer cancelled. */
  lemma CommitCasts(s: State, id: Id)
    requires Inv(s)
    ensures var s' := Step(s, CommitToRelay(id));
      if id in s.outbox then s'.outbox == s.outbox[id := Cast] && Disarms(s, s', id) else s' == s
  {
    if id in s.outbox {
      CancelDisarms(s.(outbox := s.outbox[id := Cast]), id);
    }
  }

  /** The calls that leave all timers alone. */
  lemma QuietCalls(s: State, id: Id)
    ensures var s' := Step(s, SendBegin(id)); s'.outbox == s.outbox[id := Sent] && SameTimers(s, s')
    ensures var s' := Step(s, BeginTracking(id)); s' == if id in s.outbox then s else s.(outbox := s.outbox[id := Sent])
    ensures var s' := Step(s, MarkFindingPath(id)); s' == if id in s.outbox then s.(outbox := s.outbox[id := FindingPath]) else s
  {
  }

  // ----- How a send ends -----

  /** The radio's answer becomes the status; sent arms a timer, failed cancels it, and the rest leave it. */
  lemma SendEndsAs(s: State, id: Id, outcome: Status)
    requires Inv(s) && Enabled(s, SendEnd(id, outcome))
    ensures var s' := Step(s, SendEnd(id, outcome));
      && s'.outbox == s.outbox[id := outcome] && s'.sending == s.sending - multiset{id}
      && (outcome.Sent? ==> Arms(s, s', id))
      && (outcome.NotDelivered? ==> Disarms(s, s', id))
      && (outcome.WaitingForRange? || outcome.Cast? ==> SameTimers(s, s'))
  {
    var s1 := s.(outbox := s.outbox[id := outcome], sending := s.sending - multiset{id});
    AnswerStored(s, id, outcome, s1);
    if outcome.Sent? {
      ArmArms(s1, id);
    } else if outcome.NotDelivered? {
      CancelDisarms(s1, id);
    }
  }

  lemma AnswerStored(s: State, id: Id, outcome: Status, s1: State)
    requires Inv(s) && Enabled(s, SendEnd(id, outcome))
    requires s1 == s.(outbox := s.outbox[id := outcome], sending := s.sending - multiset{id})
    ensures Inv(s1)
    ensures Step(s, SendEnd(id, outcome)) ==
      if outcome.Sent? then Arm(s1, id) else if outcome.NotDelivered? then CancelTimeout(s1, id) else s1
  {
  }

  /** A timer that fires fails its message exactly if that is tracked and not settled, and empties its slot. */
  lemma FireFailsExactly(s: State, t: nat)
    requires Inv(s) && Enabled(s, TimerFires(t))
    ensures var s', id := Step(s, TimerFires(t)), s.timers[t].id;
      && id !in s'.slot
      && s'.outbox ==
        if id in s.outbox && (s.outbox[id].Sent? || s.outbox[id].WaitingForRange? || s.outbox[id].FindingPath? || s.outbox[id].Cast?)
        then s.outbox[id := NotDelivered] else s.outbox
  {
  }

  // ----- What becomes of a send -----

  /** Handed to the radio: its timer sleeps in its slot. */
  lemma SentArmed(s: State, id: Id) returns (s': State)
    requires Inv(s)
    ensures Runs(s, [SendBegin(id), SendEnd(id, Sent)]) && s' == Run(s, [SendBegin(id), SendEnd(id, Sent)])
    ensures Inv(s') && id in s'.outbox && s'.outbox[id] == Sent
    ensures id in s'.slot && s'.slot[id] == |s.timers| && |s'.timers| == |s.timers| + 1
    ensures s'.timers[|s.timers|] == Timer(id, Sleeping, false)
    ensures s'.sending == s.sending && s'.reroute == Enveloped(s.reroute, id)
  {
    var s1 := Step(s, SendBegin(id));
    StepKeeps(s, SendBegin(id));
    QuietCalls(s, id);
    TwoStepRun(s, SendBegin(id), SendEnd(id, Sent));
    StepKeeps(s1, SendEnd(id, Sent));
    SendEndsAs(s1, id, Sent);
    s' := Step(s1, SendEnd(id, Sent));
    assert s.sending + multiset{id} - multiset{id} == s.sending;
  }

  /** A message handed to the radio and not acknowledged has failed once its timer has run. */
  lemma UnackedFails(s: State, id: Id)
    requires Inv(s)
    ensures var sent, fires := [SendBegin(id), SendEnd(id, Sent)], [TimerWakes(|s.timers|), TimerFires(|s.timers|)];
      && Runs(s, sent) && Runs(Run(s, sent), fires)
      && var s' := Run(Run(s, sent), fires); id in s'.outbox && s'.outbox[id] == NotDelivered
  {
    var s1 := SentArmed(s, id);
    SleeperFails(s1, |s.timers|, id);
  }

  lemma SleeperFails(s: State, t: nat, id: Id)
    requires Inv(s) && t < |s.timers| && s.timers[t] == Timer(id, Sleeping, false) && id in s.outbox && s.outbox[id] == Sent
    ensures Runs(s, [TimerWakes(t), TimerFires(t)])
    ensures var s' := Run(s, [TimerWakes(t), TimerFires(t)]); id in s'.outbox && s'.outbox[id] == NotDelivered
  {
    var s1 := s.(timers := s.timers[t := Timer(id, Due, false)]);
    assert Step(s, TimerWakes(t)) == s1;
    TwoStepRun(s, TimerWakes(t), TimerFires(t));
    StepKeeps(s, TimerWakes(t));
    FireFailsExactly(s1, t);
  }

  /**
   A message acknowledged before its timer has run, with no other send or reroute of it
   under way, keeps its acknowledgement whatever the router then does, and its timer never
   fires in any run.
   */
  lemma AckedStays(s: State, id: Id, hops: int, more: seq<Event>)
    requires Inv(s) && !UnderWay(s, id)
    requires var acked := [SendBegin(id), SendEnd(id, Sent)] + [ConfirmDelivery(id, hops)];
      Runs(s, acked) && Runs(Run(s, acked), more)
    ensures var s' := Run(s, [SendBegin(id), SendEnd(id, Sent)] + [ConfirmDelivery(id, hops)]);
      && (AllInternal(more) ==>
            id in Run(s', more).outbox && Run(s', more).outbox[id] == if hops <= 0 then Delivered else Relayed(hops))
      && TimerFires(|s.timers|) !in more
  {
    var s1 := SentArmed(s, id);
    RunSnoc(s, [SendBegin(id), SendEnd(id, Sent)], ConfirmDelivery(id, hops));
    var s2 := Step(s1, ConfirmDelivery(id, hops));
    AckSettles(s1, id, hops);
    CancelledSleeperNeverFires(s2, more, |s.timers|);
    AckLeavesRest(s1, id, hops);
    if AllInternal(more) {
      AckSticks(s2, more, id);
    }
  }

  lemma AckLeavesRest(s: State, id: Id, hops: int)
    ensures var s' := Step(s, ConfirmDelivery(id, hops)); s'.sending == s.sending && s'.reroute == s.reroute
  {
  }

  // ----- Reroutes -----

  /** Sent, and since some send not yet rerouted. */
  ghost predicate SentSinceRerouted(events: seq<Event>, id: Id) {
    exists i :: 0 <= i < |events| && events[i] == SendBegin(id) && RerouteBegin(id) !in events[i..]
  }

  predicate Fresh(r: Reroute, id: Id) { id in r.enveloped && id !in r.flagged }

  lemma FreshStep(s: State, e: Event, id: Id)
    requires Enabled(s, e)
    ensures Fresh(Step(s, e).reroute, id) <==> e == SendBegin(id) || (Fresh(s.reroute, id) && e != RerouteBegin(id))
  {
  }

  lemma SinceCons(events: seq<Event>, id: Id)
    requires events != []
    ensures SentSinceRerouted(events, id) <==>
      SentSinceRerouted(events[1..], id) || (events[0] == SendBegin(id) && RerouteBegin(id) !in events[1..])
  {
    if SentSinceRerouted(events[1..], id) {
      var i :| 0 <= i < |events[1..]| && events[1..][i] == SendBegin(id) && RerouteBegin(id) !in events[1..][i..];
      assert events[1..][i..] == events[i + 1..] && events[i + 1] == SendBegin(id);
    }
    if SentSinceRerouted(events, id) {
      var i :| 0 <= i < |events| && events[i] == SendBegin(id) && RerouteBegin(id) !in events[i..];
      if i > 0 {
        assert events[1..][i - 1] == SendBegin(id) && events[1..][i - 1..] == events[i..];
      } else {
        assert events[0..] == events && forall e :: e in events[1..] ==> e in events;
      }
    }
    if events[0] == SendBegin(id) && RerouteBegin(id) !in events[1..] {
      assert events[0..] == [events[0]] + events[1..];
    }
  }

  lemma {:induction false} FreshAfter(s: State, events: seq<Event>, id: Id)
    requires Runs(s, events)
    ensures Fresh(Run(s, events).reroute, id) <==>
      SentSinceRerouted(events, id) || (Fresh(s.reroute, id) && RerouteBegin(id) !in events)
    decreases |events|
  {
    if events != [] {
      FreshStep(s, events[0], id);
      FreshAfter(Step(s, events[0]), events[1..], id);
      SinceCons(events, id);
      assert events == [events[0]] + events[1..];
    }
  }

  /**
   In any run a reroute takes a message exactly if it is tracked and not settled, went
   through `send`, and no reroute of it has begun since.
   */
  lemma RerouteAdmitsExactly(events: seq<Event>, id: Id)
    requires Runs(Start, events)
    ensures var s := Run(Start, events);
      Enabled(s, RerouteStart({id})) <==>
        && id in s.outbox && (s.outbox[id].Sent? || s.outbox[id].WaitingForRange? || s.outbox[id].FindingPath? || s.outbox[id].Cast?)
        && SentSinceRerouted(events, id)
  {
    FreshAfter(Start, events, id);
  }


  /** A reroute flags its entry when it begins; its end casts a tracked message or, on a miss, changes nothing but itself. */
  lemma RerouteEndsAs(s: State, id: Id, cast: bool)
    requires Inv(s) && Enabled(s, RerouteEnd(id, cast))
    ensures var s' := Step(s, RerouteEnd(id, cast));
      && s'.reroute == s.reroute.(publishing := s.reroute.publishing - multiset{id}) && s'.sending == s.sending
      && (cast ==> s'.outbox == s.outbox[id := Cast] && Disarms(s, s', id))
      && (!cast ==> s'.outbox == s.outbox && SameTimers(s, s'))
  {
    var s1 := s.(reroute := s.reroute.(publishing := s.reroute.publishing - multiset{id}));
    assert Inv(s1);
    if cast {
      assert Step(s, RerouteEnd(id, cast)) == Step(s1, CommitToRelay(id));
      CommitCasts(s1, id);
    }
  }
}
