/**
 Delivery tracking of the message router (Core/Protocol_Seam/MessageRouter.swift): per-message
 states and stuck-send timers on one actor. `send` suspends while the radio works, and a
 timer that has passed its cancellation check still has to hop back onto the actor, and a
 reroute decides on a snapshot and suspends while it publishes; each gap is a step here.
 */
module Router {

  type Id = nat

  datatype Status = WaitingForRange | Sent | Cast | Delivered | Relayed(hops: int) | FindingPath | NotDelivered {
    predicate Terminal() { Delivered? || Relayed? || NotDelivered? }
    predicate Acked() { Delivered? || Relayed? }
  }

  /** `Due` is past the cancellation check, waiting for the actor. */
  datatype Phase = Sleeping | Due | Done

  datatype Timer = Timer(id: Id, phase: Phase, cancelled: bool) {
    predicate Live() { !cancelled && !phase.Done? }
  }

  /**
   `enveloped` are the entries that keep their sealed bytes, `flagged` the ones marked as
   rerouted. A reroute has its ids `queued` from its snapshot on, and `publishing` while
   it awaits the relay.
   */
  datatype Reroute = Reroute(enveloped: set<Id>, flagged: set<Id>, queued: multiset<Id>, publishing: multiset<Id>)

  datatype State = State(
    outbox: map<Id, Status>,
    slot: map<Id, nat>,
    timers: seq<Timer>,
    sending: multiset<Id>,
    reroute: Reroute)

  const NO_REROUTE := Reroute({}, {}, multiset{}, multiset{})

  const Start := State(map[], map[], [], multiset{}, NO_REROUTE)

  datatype Event =
    | SendBegin(id: Id)
    | SendEnd(id: Id, outcome: Status)
    | BeginTracking(id: Id)
    | StartTimeout(id: Id)
    | ExtendTimeout(id: Id)
    | MarkFindingPath(id: Id)
    | ConfirmDelivery(id: Id, hops: int)
    | ConfirmFailure(id: Id)
    | CommitToRelay(id: Id)
    | RerouteStart(ids: set<Id>)
    | RerouteBegin(id: Id)
    | RerouteEnd(id: Id, cast: bool)
    | TimerWakes(t: nat)
    | TimerFires(t: nat)

  // ----- The helpers -----

  function CancelTimeout(s: State, id: Id): (r: State)
    ensures r.outbox == s.outbox && r.sending == s.sending && r.reroute == s.reroute && |r.timers| == |s.timers| && id !in r.slot
  {
    if id !in s.slot || s.slot[id] >= |s.timers| then s.(slot := s.slot - {id})
    else
      var t := s.slot[id];
      s.(slot := s.slot - {id}, timers := s.timers[t := s.timers[t].(cancelled := true)])
  }

  function Update(s: State, id: Id, status: Status): (r: State)
    ensures r.outbox == (if id in s.outbox then s.outbox[id := status] else s.outbox) && r.sending == s.sending && r.reroute == s.reroute
  {
    var s' := if id in s.outbox then s.(outbox := s.outbox[id := status]) else s;
    if status.Terminal() then CancelTimeout(s', id) else s'
  }

  function Arm(s: State, id: Id): (r: State)
    ensures r.outbox == s.outbox && r.sending == s.sending && r.reroute == s.reroute && id in r.slot
  {
    var s' := CancelTimeout(s, id);
    s'.(timers := s'.timers + [Timer(id, Sleeping, false)], slot := s'.slot[id := |s'.timers|])
  }

  function Fired(s: State, id: Id): State {
    var s' := s.(slot := s.slot - {id});
    if id !in s.outbox || s.outbox[id].Terminal() then s' else Update(s', id, NotDelivered)
  }

  function ArmUnlessSettled(s: State, id: Id): State {
    if id !in s.outbox || s.outbox[id].Terminal() || s.outbox[id].Cast? then s else Arm(s, id)
  }

  /** The four ways a radio hand-off can end. */
  predicate Outcome(status: Status) {
    status.Sent? || status.Cast? || status.WaitingForRange? || status.NotDelivered?
  }

  function Commit(s: State, id: Id): (r: State)
    ensures r.outbox == (if id in s.outbox then s.outbox[id := Cast] else s.outbox)
    ensures r.sending == s.sending && r.reroute == s.reroute && |r.timers| == |s.timers|
  {
    if id in s.outbox then CancelTimeout(Update(s, id, Cast), id) else s
  }

  /** The snapshot takes unsettled entries that keep their bytes and are not yet flagged. */
  predicate Reroutable(s: State, id: Id) {
    id in s.outbox && !s.outbox[id].Terminal() && id in s.reroute.enveloped && id !in s.reroute.flagged
  }

  predicate Enabled(s: State, e: Event) {
    match e
    case SendEnd(id, outcome) => id in s.sending && Outcome(outcome)
    case RerouteStart(ids) => forall id :: id in ids ==> Reroutable(s, id)
    case RerouteBegin(id) => id in s.reroute.queued
    case RerouteEnd(id, _) => id in s.reroute.publishing
    case TimerWakes(t) => t < |s.timers| && s.timers[t].phase.Sleeping?
    case TimerFires(t) => t < |s.timers| && s.timers[t].phase.Due?
    case _ => true
  }

  function StartReroute(r: Reroute, ids: set<Id>): Reroute {
    r.(queued := r.queued + multiset(ids))
  }

  function BeginReroute(r: Reroute, id: Id): Reroute {
    r.(queued := r.queued - multiset{id}, publishing := r.publishing + multiset{id}, flagged := r.flagged + {id})
  }

  function EndReroute(r: Reroute, id: Id): Reroute {
    r.(publishing := r.publishing - multiset{id})
  }

  /** A send replaces the entry: bytes kept, flag down. */
  function Enveloped(r: Reroute, id: Id): Reroute {
    r.(enveloped := r.enveloped + {id}, flagged := r.flagged - {id})
  }

  function Step(s: State, e: Event): State
    requires Enabled(s, e)
  {
    match e
    case SendBegin(id) =>
      s.(outbox := s.outbox[id := Sent], sending := s.sending + multiset{id}, reroute := Enveloped(s.reroute, id))
    case SendEnd(id, outcome) =>
      var s' := Update(s.(sending := s.sending - multiset{id}), id, outcome);
      if outcome.Sent? then Arm(s', id) else s'
    case BeginTracking(id) => if id in s.outbox then s else s.(outbox := s.outbox[id := Sent])
    case StartTimeout(id) => ArmUnlessSettled(s, id)
    case ExtendTimeout(id) => ArmUnlessSettled(s, id)
    case MarkFindingPath(id) => if id in s.outbox then Update(s, id, FindingPath) else s
    case ConfirmDelivery(id, hops) =>
      if id in s.outbox then Update(s, id, if hops <= 0 then Delivered else Relayed(hops)) else s
    case ConfirmFailure(id) => if id in s.outbox then Update(s, id, NotDelivered) else s
    case CommitToRelay(id) => Commit(s, id)
    case RerouteStart(ids) => s.(reroute := StartReroute(s.reroute, ids))
    case RerouteBegin(id) => s.(reroute := BeginReroute(s.reroute, id))
    case RerouteEnd(id, cast) =>
      var s' := s.(reroute := EndReroute(s.reroute, id));
      if cast then Commit(s', id) else s'
    case TimerWakes(t) =>
      s.(timers := s.timers[t := s.timers[t].(phase := if s.timers[t].cancelled then Done else Due)])
    case TimerFires(t) =>
      Fired(s.(timers := s.timers[t := s.timers[t].(phase := Done)]), s.timers[t].id)
  }

  /** The statuses after a step, whatever becomes of the timers. */
  function StatusesAfter(s: State, e: Event): map<Id, Status>
    requires Enabled(s, e)
  {
    var was := s.outbox;
    match e
    case SendBegin(id) => was[id := Sent]
    case SendEnd(id, outcome) => if id in was then was[id := outcome] else was
    case BeginTracking(id) => if id in was then was else was[id := Sent]
    case MarkFindingPath(id) => if id in was then was[id := FindingPath] else was
    case ConfirmDelivery(id, hops) =>
      if id in was then was[id := if hops <= 0 then Delivered else Relayed(hops)] else was
    case ConfirmFailure(id) => if id in was then was[id := NotDelivered] else was
    case CommitToRelay(id) => if id in was then was[id := Cast] else was
    case RerouteEnd(id, cast) => if cast && id in was then was[id := Cast] else was
    case TimerFires(t) =>
      var id := s.timers[t].id;
      if id in was && !was[id].Terminal() then was[id := NotDelivered] else was
    case _ => was
  }

  lemma StepStatuses(s: State, e: Event)
    requires Enabled(s, e)
    ensures Step(s, e).outbox == StatusesAfter(s, e)
  {
  }

  ghost predicate Runs(s: State, events: seq<Event>)
    decreases |events|
  {
    events == [] || (Enabled(s, events[0]) && Runs(Step(s, events[0]), events[1..]))
  }

  ghost function Run(s: State, events: seq<Event>): State
    requires Runs(s, events)
    decreases |events|
  {
    if events == [] then s else Run(Step(s, events[0]), events[1..])
  }

  lemma {:induction false} RunSnoc(s: State, events: seq<Event>, e: Event)
    requires Runs(s, events) && Enabled(Run(s, events), e)
    ensures Runs(s, events + [e]) && Run(s, events + [e]) == Step(Run(s, events), e)
    decreases |events|
  {
    if events == [] {
      assert [e][1..] == [] && events + [e] == [e];
    } else {
      RunSnoc(Step(s, events[0]), events[1..], e);
      assert (events + [e])[1..] == events[1..] + [e];
    }
  }

  // ----- What every run keeps -----

  /** Each slot holds a live timer of its own message, and whatever is under way is tracked. */
  ghost predicate Inv(s: State) {
    && (forall id :: id in s.slot ==>
          s.slot[id] < |s.timers| && s.timers[s.slot[id]].id == id && s.timers[s.slot[id]].Live())
    && (forall id :: id in s.sending || id in s.reroute.queued || id in s.reroute.publishing ==> id in s.outbox)
  }

  lemma CancelKeeps(s: State, id: Id)
    requires Inv(s)
    ensures Inv(CancelTimeout(s, id))
  {
  }

  lemma UpdateKeeps(s: State, id: Id, status: Status)
    requires Inv(s)
    ensures Inv(Update(s, id, status))
  {
    CancelKeeps(if id in s.outbox then s.(outbox := s.outbox[id := status]) else s, id);
  }

  lemma ArmKeeps(s: State, id: Id)
    requires Inv(s)
    ensures Inv(Arm(s, id))
  {
    CancelKeeps(s, id);
  }

  lemma CommitKeeps(s: State, id: Id)
    requires Inv(s)
    ensures Inv(Commit(s, id))
  {
    UpdateKeeps(s, id, Cast);
    CancelKeeps(Update(s, id, Cast), id);
  }

  lemma TimerKeeps(s: State, e: Event)
    requires Inv(s) && Enabled(s, e) && (e.TimerWakes? || e.TimerFires?)
    ensures Inv(Step(s, e))
  {
    if e.TimerFires? {
      var id := s.timers[e.t].id;
      var s' := s.(timers := s.timers[e.t := s.timers[e.t].(phase := Done)], slot := s.slot - {id});
      assert Inv(s');
      UpdateKeeps(s', id, NotDelivered);
    }
  }

  lemma RerouteKeeps(s: State, e: Event)
    requires Inv(s) && Enabled(s, e) && (e.RerouteStart? || e.RerouteBegin? || e.RerouteEnd?)
    ensures Inv(Step(s, e))
  {
    if e.RerouteEnd? {
      CommitKeeps(s.(reroute := EndReroute(s.reroute, e.id)), e.id);
    }
  }

  lemma StepKeeps(s: State, e: Event)
    requires Inv(s) && Enabled(s, e)
    ensures Inv(Step(s, e))
  {
    match e
    case SendBegin(id) =>
    case SendEnd(id, outcome) =>
      var s' := s.(sending := s.sending - multiset{id});
      UpdateKeeps(s', id, outcome);
      ArmKeeps(Update(s', id, outcome), id);
    case BeginTracking(id) =>
    case StartTimeout(id) => ArmKeeps(s, id);
    case ExtendTimeout(id) => ArmKeeps(s, id);
    case MarkFindingPath(id) => UpdateKeeps(s, id, FindingPath);
    case ConfirmDelivery(id, hops) => UpdateKeeps(s, id, if hops <= 0 then Delivered else Relayed(hops));
    case ConfirmFailure(id) => UpdateKeeps(s, id, NotDelivered);
    case CommitToRelay(id) => CommitKeeps(s, id);
    case RerouteStart(_) => RerouteKeeps(s, e);
    case RerouteBegin(_) => RerouteKeeps(s, e);
    case RerouteEnd(_, _) => RerouteKeeps(s, e);
    case TimerWakes(_) => TimerKeeps(s, e);
    case TimerFires(_) => TimerKeeps(s, e);
  }

  /** Over every run: a slot is never empty-handed. */
  lemma {:induction false} SlotsHoldLiveTimers(s: State, events: seq<Event>)
    requires Inv(s) && Runs(s, events)
    ensures Inv(Run(s, events))
    decreases |events|
  {
    if events != [] {
      StepKeeps(s, events[0]);
      SlotsHoldLiveTimers(Step(s, events[0]), events[1..]);
    }
  }

  // ----- When a cast message gets a timer -----

  /** A live timer of a message. */
  predicate LiveFor(s: State, t: nat, id: Id) {
    t < |s.timers| && s.timers[t].Live() && s.timers[t].id == id
  }

  /** A live timer no slot knows of, so nothing can cancel it. */
  predicate Orphan(s: State, t: nat, id: Id) {
    LiveFor(s, t, id) && !(id in s.slot && s.slot[id] == t)
  }

  /** The message is with the relay and has a live timer. */
  ghost predicate CastTimed(s: State, id: Id) {
    id in s.outbox && s.outbox[id].Cast? && exists t :: LiveFor(s, t, id)
  }

  /** A relay hand-off of the message that leaves it a live timer. */
  ghost predicate TimesCast(s: State, e: Event, id: Id)
    requires Enabled(s, e)
  {
    && id in s.outbox
    && ((e == SendEnd(id, Cast) && exists t :: LiveFor(s, t, id))
        || ((e == CommitToRelay(id) || e == RerouteEnd(id, true)) && exists t :: Orphan(s, t, id)))
  }

  lemma CommitTimes(s: State, id: Id)
    requires Inv(s) && id in s.outbox
    ensures CastTimed(Commit(s, id), id) <==> exists t :: Orphan(s, t, id)
  {
    var s' := Commit(s, id);
    forall t: nat
      ensures LiveFor(s', t, id) <==> Orphan(s, t, id)
    {
    }
  }

  lemma RerouteTimes(s: State, id: Id)
    requires Inv(s) && Enabled(s, RerouteEnd(id, true))
    ensures CastTimed(Step(s, RerouteEnd(id, true)), id) <==> exists t :: Orphan(s, t, id)
  {
    var s1 := s.(reroute := EndReroute(s.reroute, id));
    assert forall t :: Orphan(s1, t, id) <==> Orphan(s, t, id);
    CommitTimes(s1, id);
  }

  lemma SendEndTimes(s: State, id: Id)
    requires Inv(s) && Enabled(s, SendEnd(id, Cast))
    ensures CastTimed(Step(s, SendEnd(id, Cast)), id) <==> exists t :: LiveFor(s, t, id)
  {
    assert forall t :: LiveFor(Step(s, SendEnd(id, Cast)), t, id) <==> LiveFor(s, t, id);
  }

  /** Timers only ever get cancelled, pass their check while uncancelled, and finish. */
  predicate Aged(a: Timer, b: Timer) {
    && b.id == a.id
    && (a.cancelled ==> b.cancelled)
    && (a.phase.Done? ==> b.phase.Done?)
    && (a.cancelled && !a.phase.Due? ==> !b.phase.Due?)
  }

  ghost predicate TimersAge(s: State, s': State) {
    |s.timers| <= |s'.timers| && forall t :: 0 <= t < |s.timers| ==> Aged(s.timers[t], s'.timers[t])
  }

  lemma CancelAges(s: State, id: Id)
    ensures TimersAge(s, CancelTimeout(s, id))
  {
  }

  lemma UpdateAges(s: State, id: Id, status: Status)
    ensures TimersAge(s, Update(s, id, status))
  {
    CancelAges(if id in s.outbox then s.(outbox := s.outbox[id := status]) else s, id);
  }

  lemma ArmAges(s: State, id: Id)
    ensures TimersAge(s, Arm(s, id))
  {
    CancelAges(s, id);
  }

  lemma CommitAges(s: State, id: Id)
    ensures TimersAge(s, Commit(s, id))
  {
    UpdateAges(s, id, Cast);
    CancelAges(Update(s, id, Cast), id);
  }

  lemma ClockAges(s: State, e: Event)
    requires Enabled(s, e) && (e.TimerWakes? || e.TimerFires?)
    ensures TimersAge(s, Step(s, e))
  {
    if e.TimerFires? {
      var id := s.timers[e.t].id;
      UpdateAges(s.(timers := s.timers[e.t := s.timers[e.t].(phase := Done)], slot := s.slot - {id}), id, NotDelivered);
    }
  }

  lemma SendEndAges(s: State, id: Id, outcome: Status)
    requires Enabled(s, SendEnd(id, outcome))
    ensures TimersAge(s, Step(s, SendEnd(id, outcome)))
  {
    var s1 := s.(sending := s.sending - multiset{id});
    UpdateAges(s1, id, outcome);
    ArmAges(Update(s1, id, outcome), id);
  }

  lemma RerouteAges(s: State, e: Event)
    requires Enabled(s, e) && (e.RerouteStart? || e.RerouteBegin? || e.RerouteEnd?)
    ensures TimersAge(s, Step(s, e))
  {
    if e.RerouteEnd? {
      CommitAges(s.(reroute := EndReroute(s.reroute, e.id)), e.id);
    }
  }

  lemma StepAges(s: State, e: Event)
    requires Enabled(s, e)
    ensures TimersAge(s, Step(s, e))
  {
    match e
    case SendBegin(_) =>
    case SendEnd(id, outcome) => SendEndAges(s, id, outcome);
    case BeginTracking(_) =>
    case StartTimeout(id) => ArmAges(s, id);
    case ExtendTimeout(id) => ArmAges(s, id);
    case MarkFindingPath(id) => UpdateAges(s, id, FindingPath);
    case ConfirmDelivery(id, hops) => UpdateAges(s, id, if hops <= 0 then Delivered else Relayed(hops));
    case ConfirmFailure(id) => UpdateAges(s, id, NotDelivered);
    case CommitToRelay(id) => CommitAges(s, id);
    case RerouteStart(_) => RerouteAges(s, e);
    case RerouteBegin(_) => RerouteAges(s, e);
    case RerouteEnd(_, _) => RerouteAges(s, e);
    case TimerWakes(_) => ClockAges(s, e);
    case TimerFires(_) => ClockAges(s, e);
  }

  predicate HandsToRelay(e: Event, id: Id) {
    e == SendEnd(id, Cast) || e == CommitToRelay(id) || e == RerouteEnd(id, true)
  }

  /** A message becomes cast by a hand-off of its own, and a cast one is never armed. */
  lemma CastBefore(s: State, e: Event, id: Id)
    requires Enabled(s, e) && !HandsToRelay(e, id) && id in Step(s, e).outbox && Step(s, e).outbox[id].Cast?
    ensures id in s.outbox && s.outbox[id].Cast?
    ensures |s.timers| <= |Step(s, e).timers| <= |s.timers| + 1
    ensures |Step(s, e).timers| > |s.timers| ==> Step(s, e).timers[|s.timers|].id != id
  {
    StepStatuses(s, e);
  }

  /** Where timers only age and any new one is another message's, a cast message stays untimed. */
  lemma StaysUntimed(s: State, s': State, id: Id)
    requires TimersAge(s, s') && |s'.timers| <= |s.timers| + 1
    requires |s'.timers| > |s.timers| ==> s'.timers[|s.timers|].id != id
    requires id in s.outbox && s.outbox[id].Cast? && !CastTimed(s, id)
    ensures !CastTimed(s', id)
  {
    forall t: nat | LiveFor(s', t, id)
      ensures LiveFor(s, t, id)
    {
      assert t < |s.timers| && Aged(s.timers[t], s'.timers[t]);
    }
  }

  lemma OtherTimes(s: State, e: Event, id: Id)
    requires Enabled(s, e) && !HandsToRelay(e, id) && !CastTimed(s, id)
    ensures !CastTimed(Step(s, e), id)
  {
    if id in Step(s, e).outbox && Step(s, e).outbox[id].Cast? {
      CastBefore(s, e, id);
      StepAges(s, e);
      StaysUntimed(s, Step(s, e), id);
    }
  }

  /** One step from any reachable state: which steps give a cast message a timer. */
  lemma CastTimedExactly(s: State, e: Event, id: Id)
    requires Inv(s) && Enabled(s, e) && !CastTimed(s, id)
    ensures CastTimed(Step(s, e), id) <==> TimesCast(s, e, id)
  {
    if e == SendEnd(id, Cast) {
      SendEndTimes(s, id);
    } else if e == CommitToRelay(id) {
      if id in s.outbox {
        CommitTimes(s, id);
      }
    } else if e == RerouteEnd(id, true) {
      RerouteTimes(s, id);
    } else {
      OtherTimes(s, e, id);
    }
  }

  /** In some state of the run, the first or the last included, the message is cast with a live timer. */
  ghost predicate EverCastTimed(s: State, events: seq<Event>, id: Id)
    requires Runs(s, events)
    decreases |events|
  {
    CastTimed(s, id) || (events != [] && EverCastTimed(Step(s, events[0]), events[1..], id))
  }

  ghost predicate SomeTimesCast(s: State, events: seq<Event>, id: Id)
    requires Runs(s, events)
    decreases |events|
  {
    events != [] && (TimesCast(s, events[0], id) || SomeTimesCast(Step(s, events[0]), events[1..], id))
  }

  lemma {:induction false} CastTimedFrom(s: State, events: seq<Event>, id: Id)
    requires Inv(s) && Runs(s, events) && !CastTimed(s, id)
    ensures EverCastTimed(s, events, id) <==> SomeTimesCast(s, events, id)
    decreases |events|
  {
    if events != [] {
      var s' := Step(s, events[0]);
      StepKeeps(s, events[0]);
      CastTimedExactly(s, events[0], id);
      if !CastTimed(s', id) {
        CastTimedFrom(s', events[1..], id);
      }
    }
  }

  /** Over every run, for each message: it is cast with a live timer at some point exactly if some hand-off of it left it one. */
  lemma CastNeverTimed(events: seq<Event>, id: Id)
    requires Runs(Start, events)
    ensures !EverCastTimed(Start, events, id) <==> !SomeTimesCast(Start, events, id)
  {
    CastTimedFrom(Start, events, id);
  }

  // ----- Where orphans come from -----

  ghost predicate Orphaned(s: State) {
    exists t, id :: Orphan(s, t, id)
  }

  /** A timer fires after its cancellation while its message is armed again. */
  predicate Unseats(s: State, e: Event)
    requires Enabled(s, e)
  {
    e.TimerFires? && s.timers[e.t].cancelled && s.timers[e.t].id in s.slot
  }

  lemma UnseatOrphans(s: State, t: nat)
    requires Inv(s) && Enabled(s, TimerFires(t)) && Unseats(s, TimerFires(t))
    ensures Orphaned(Step(s, TimerFires(t)))
  {
    var id := s.timers[t].id;
    assert Orphan(Step(s, TimerFires(t)), s.slot[id], id);
  }

  lemma CancelOrphansNone(s: State, id: Id)
    requires Inv(s) && !Orphaned(s)
    ensures !Orphaned(CancelTimeout(s, id))
  {
    var s' := CancelTimeout(s, id);
    forall t: nat, q: Id | LiveFor(s', t, q)
      ensures !Orphan(s', t, q)
    {
      assert LiveFor(s, t, q) && !Orphan(s, t, q);
    }
  }

  lemma ArmOrphansNone(s: State, id: Id)
    requires Inv(s) && !Orphaned(s)
    ensures !Orphaned(Arm(s, id))
  {
    CancelOrphansNone(s, id);
    var s1, s' := CancelTimeout(s, id), Arm(s, id);
    forall t: nat, q: Id | LiveFor(s', t, q)
      ensures !Orphan(s', t, q)
    {
      if t < |s1.timers| {
        assert LiveFor(s1, t, q) && !Orphan(s1, t, q);
      }
    }
  }

  lemma SameTimers(s: State, s': State)
    requires !Orphaned(s) && s'.timers == s.timers && s'.slot == s.slot
    ensures !Orphaned(s')
  {
    forall t: nat, q: Id
      ensures !Orphan(s', t, q)
    {
      assert !Orphan(s, t, q);
    }
  }

  lemma UpdateOrphansNone(s: State, id: Id, status: Status)
    requires Inv(s) && !Orphaned(s)
    ensures !Orphaned(Update(s, id, status))
  {
    var s1 := if id in s.outbox then s.(outbox := s.outbox[id := status]) else s;
    SameTimers(s, s1);
    CancelOrphansNone(s1, id);
  }

  lemma CommitOrphansNone(s: State, id: Id)
    requires Inv(s) && !Orphaned(s)
    ensures !Orphaned(Commit(s, id))
  {
    UpdateKeeps(s, id, Cast);
    UpdateOrphansNone(s, id, Cast);
    CancelOrphansNone(Update(s, id, Cast), id);
  }

  lemma TimerOrphansNone(s: State, e: Event)
    requires Inv(s) && Enabled(s, e) && !Orphaned(s) && !Unseats(s, e) && (e.TimerWakes? || e.TimerFires?)
    ensures !Orphaned(Step(s, e))
  {
    var s' := Step(s, e);
    var fired := s.timers[e.t];
    assert fired.Live() ==> !Orphan(s, e.t, fired.id);
    forall t: nat, q: Id | LiveFor(s', t, q)
      ensures !Orphan(s', t, q)
    {
      assert LiveFor(s, t, q) && !Orphan(s, t, q);
    }
  }

  lemma OrphanStep(s: State, e: Event)
    requires Inv(s) && Enabled(s, e) && !Orphaned(s) && !Unseats(s, e)
    ensures !Orphaned(Step(s, e))
  {
    match e
    case SendBegin(_) => SameTimers(s, Step(s, e));
    case SendEnd(id, outcome) =>
      var s1 := s.(sending := s.sending - multiset{id});
      SameTimers(s, s1);
      UpdateKeeps(s1, id, outcome);
      UpdateOrphansNone(s1, id, outcome);
      ArmOrphansNone(Update(s1, id, outcome), id);
    case BeginTracking(_) => SameTimers(s, Step(s, e));
    case StartTimeout(id) => ArmOrphansNone(s, id);
    case ExtendTimeout(id) => ArmOrphansNone(s, id);
    case MarkFindingPath(id) => UpdateOrphansNone(s, id, FindingPath);
    case ConfirmDelivery(id, hops) => UpdateOrphansNone(s, id, if hops <= 0 then Delivered else Relayed(hops));
    case ConfirmFailure(id) => UpdateOrphansNone(s, id, NotDelivered);
    case CommitToRelay(id) => CommitOrphansNone(s, id);
    case RerouteStart(_) => SameTimers(s, Step(s, e));
    case RerouteBegin(_) => SameTimers(s, Step(s, e));
    case RerouteEnd(id, _) =>
      var s1 := s.(reroute := EndReroute(s.reroute, id));
      SameTimers(s, s1);
      CommitOrphansNone(s1, id);
    case TimerWakes(_) => TimerOrphansNone(s, e);
    case TimerFires(_) => TimerOrphansNone(s, e);
  }

  ghost predicate EverOrphaned(s: State, events: seq<Event>)
    requires Runs(s, events)
    decreases |events|
  {
    Orphaned(s) || (events != [] && EverOrphaned(Step(s, events[0]), events[1..]))
  }

  ghost predicate SomeUnseats(s: State, events: seq<Event>)
    requires Runs(s, events)
    decreases |events|
  {
    events != [] && (Unseats(s, events[0]) || SomeUnseats(Step(s, events[0]), events[1..]))
  }

  lemma {:induction false} OrphansFrom(s: State, events: seq<Event>)
    requires Inv(s) && Runs(s, events) && !Orphaned(s)
    ensures EverOrphaned(s, events) <==> SomeUnseats(s, events)
    decreases |events|
  {
    if events != [] {
      var s' := Step(s, events[0]);
      StepKeeps(s, events[0]);
      if Unseats(s, events[0]) {
        UnseatOrphans(s, events[0].t);
      } else {
        OrphanStep(s, events[0]);
        OrphansFrom(s', events[1..]);
      }
    }
  }

  /** Over every run: a live timer escapes its slot exactly if a cancelled one fires while its message is armed. */
  lemma OrphansExactly(events: seq<Event>)
    requires Runs(Start, events)
    ensures EverOrphaned(Start, events) <==> SomeUnseats(Start, events)
  {
    OrphansFrom(Start, events);
  }

  // ----- What fails a cast message -----

  /** In any state: a failure ack, a failing resend, or a timer of the message. */
  lemma CastFailsExactly(s: State, e: Event, id: Id)
    requires Enabled(s, e) && id in s.outbox && s.outbox[id].Cast?
    ensures id in Step(s, e).outbox
    ensures Step(s, e).outbox[id].NotDelivered? <==>
      || e == ConfirmFailure(id)
      || e == SendEnd(id, NotDelivered)
      || (e.TimerFires? && s.timers[e.t].id == id)
  {
    StepStatuses(s, e);
  }

  /** The timer that fails it slipped past its own cancellation, or a hand-off of this message left it alive. */
  lemma TimerFailsCast(events: seq<Event>, t: nat)
    requires Runs(Start, events)
    requires var s := Run(Start, events);
      Enabled(s, TimerFires(t)) && s.timers[t].id in s.outbox && s.outbox[s.timers[t].id].Cast?
    ensures var timer := Run(Start, events).timers[t];
      timer.cancelled || SomeTimesCast(Start, events, timer.id)
  {
    var s := Run(Start, events);
    var id := s.timers[t].id;
    if !s.timers[t].cancelled {
      assert LiveFor(s, t, id);
      LastIsSome(Start, events, id);
      CastTimedFrom(Start, events, id);
    }
  }

  lemma {:induction false} LastIsSome(s: State, events: seq<Event>, id: Id)
    requires Runs(s, events) && CastTimed(Run(s, events), id)
    ensures EverCastTimed(s, events, id)
    decreases |events|
  {
    if events != [] {
      LastIsSome(Step(s, events[0]), events[1..], id);
    }
  }

  /** A timer of the message is past its check, or asleep and not cancelled. */
  ghost predicate Threatened(s: State, id: Id) {
    exists t :: 0 <= t < |s.timers| && Threatens(s.timers[t], id)
  }

  predicate Threatens(t: Timer, id: Id) {
    t.id == id && (t.phase.Due? || (t.phase.Sleeping? && !t.cancelled))
  }

  /** What speaks about the message itself: acks, sends and routing marks. */
  predicate ActsOn(e: Event, id: Id) {
    (e.ConfirmDelivery? || e.ConfirmFailure? || e.SendBegin? || e.SendEnd? || e.MarkFindingPath?) && e.id == id
  }

  ghost predicate NoneActs(events: seq<Event>, id: Id) {
    forall i :: 0 <= i < |events| ==> !ActsOn(events[i], id)
  }

  /** Whatever the rest of the router does, the message stays with the relay. */
  ghost predicate CastKept(s: State, id: Id) {
    forall events :: Runs(s, events) && NoneActs(events, id) ==>
      var s' := Run(s, events); id in s'.outbox && s'.outbox[id].Cast?
  }

  lemma UnthreatenedStep(s: State, e: Event, id: Id)
    requires Enabled(s, e) && !ActsOn(e, id) && id in s.outbox && s.outbox[id].Cast? && !Threatened(s, id)
    ensures var s' := Step(s, e); id in s'.outbox && s'.outbox[id].Cast? && !Threatened(s', id)
  {
    assert forall t :: 0 <= t < |s.timers| ==> !Threatens(s.timers[t], id);
    TimersOnlySettle(s, e, id);
  }

  /** No timer of the message is a threat that was none before. */
  ghost predicate NoNewThreat(s: State, s': State, id: Id) {
    forall t :: 0 <= t < |s'.timers| && Threatens(s'.timers[t], id) ==> t < |s.timers| && Threatens(s.timers[t], id)
  }

  lemma CancelNoThreat(s: State, q: Id, id: Id)
    ensures NoNewThreat(s, CancelTimeout(s, q), id)
  {
  }

  lemma ArmNoThreat(s: State, q: Id, id: Id)
    requires q != id
    ensures NoNewThreat(s, Arm(s, q), id)
  {
    CancelNoThreat(s, q, id);
  }

  lemma FiredNoThreat(s: State, q: Id, id: Id)
    ensures NoNewThreat(s, Fired(s, q), id)
  {
    CancelNoThreat(s.(slot := s.slot - {q}), q, id);
  }

  lemma ClockNoThreat(s: State, e: Event, id: Id)
    requires Enabled(s, e) && (e.TimerWakes? || e.TimerFires?)
    ensures NoNewThreat(s, Step(s, e), id)
  {
    if e.TimerFires? {
      var s1 := s.(timers := s.timers[e.t := s.timers[e.t].(phase := Done)]);
      assert NoNewThreat(s, s1, id);
      FiredNoThreat(s1, s.timers[e.t].id, id);
    }
  }

  lemma CommitNoThreat(s: State, q: Id, id: Id)
    ensures NoNewThreat(s, Commit(s, q), id)
  {
    CancelNoThreat(Update(s, q, Cast), q, id);
  }

  lemma UpdateNoThreat(s: State, q: Id, status: Status, id: Id)
    ensures NoNewThreat(s, Update(s, q, status), id)
  {
    CancelNoThreat(if q in s.outbox then s.(outbox := s.outbox[q := status]) else s, q, id);
  }

  /** Unless the message is armed, no step makes one of its timers a threat. */
  lemma TimersOnlySettle(s: State, e: Event, id: Id)
    requires Enabled(s, e) && !ActsOn(e, id) && id in s.outbox && s.outbox[id].Cast?
    ensures NoNewThreat(s, Step(s, e), id)
  {
    match e
    case SendBegin(_) =>
    case SendEnd(q, outcome) =>
      var s1 := s.(sending := s.sending - multiset{q});
      UpdateNoThreat(s1, q, outcome, id);
      ArmNoThreat(Update(s1, q, outcome), q, id);
    case BeginTracking(_) =>
    case StartTimeout(q) => if q != id { ArmNoThreat(s, q, id); }
    case ExtendTimeout(q) => if q != id { ArmNoThreat(s, q, id); }
    case MarkFindingPath(q) => UpdateNoThreat(s, q, FindingPath, id);
    case ConfirmDelivery(q, hops) => UpdateNoThreat(s, q, if hops <= 0 then Delivered else Relayed(hops), id);
    case ConfirmFailure(q) => UpdateNoThreat(s, q, NotDelivered, id);
    case CommitToRelay(q) => CommitNoThreat(s, q, id);
    case RerouteStart(_) =>
    case RerouteBegin(_) =>
    case RerouteEnd(q, _) => CommitNoThreat(s.(reroute := EndReroute(s.reroute, q)), q, id);
    case TimerWakes(_) => ClockNoThreat(s, e, id);
    case TimerFires(_) => ClockNoThreat(s, e, id);
  }

  lemma {:induction false} UnthreatenedKept(s: State, events: seq<Event>, id: Id)
    requires Runs(s, events) && NoneActs(events, id) && id in s.outbox && s.outbox[id].Cast? && !Threatened(s, id)
    ensures var s' := Run(s, events); id in s'.outbox && s'.outbox[id].Cast?
    decreases |events|
  {
    if events != [] {
      UnthreatenedStep(s, events[0], id);
      UnthreatenedKept(Step(s, events[0]), events[1..], id);
    }
  }

  lemma ThreatRealised(s: State, t: nat, id: Id) returns (events: seq<Event>)
    requires t < |s.timers| && Threatens(s.timers[t], id) && id in s.outbox && s.outbox[id].Cast?
    ensures Runs(s, events) && NoneActs(events, id)
    ensures id in Run(s, events).outbox && Run(s, events).outbox[id].NotDelivered?
  {
    if s.timers[t].phase.Due? {
      events := [TimerFires(t)];
      assert events[1..] == [];
      assert Runs(Step(s, TimerFires(t)), []);
      assert Run(s, events) == Step(s, TimerFires(t));
    } else {
      events := [TimerWakes(t), TimerFires(t)];
      var s1 := Step(s, TimerWakes(t));
      assert events[1..] == [TimerFires(t)] && [TimerFires(t)][1..] == [];
      assert Runs(Step(s1, TimerFires(t)), []);
      assert Run(s1, [TimerFires(t)]) == Step(s1, TimerFires(t));
    }
  }

  /**
   A message at the relay stays there in every run in which nothing acts on it, exactly
   when none of its timers is past its check or alive.
   */
  lemma CastKeptExactly(s: State, id: Id)
    requires id in s.outbox && s.outbox[id].Cast?
    ensures CastKept(s, id) <==> !Threatened(s, id)
  {
    if Threatened(s, id) {
      var t :| 0 <= t < |s.timers| && Threatens(s.timers[t], id);
      var events := ThreatRealised(s, t, id);
    } else {
      forall events | Runs(s, events) && NoneActs(events, id)
        ensures var s' := Run(s, events); id in s'.outbox && s'.outbox[id].Cast?
      {
        UnthreatenedKept(s, events, id);
      }
    }
  }

  /** Committing makes the message safe exactly when its timers are done or cancellable in their sleep. */
  lemma CommitSafeExactly(s: State, id: Id)
    requires Inv(s) && id in s.outbox
    ensures CastKept(Step(s, CommitToRelay(id)), id) <==>
      forall t :: 0 <= t < |s.timers| && Threatens(s.timers[t], id) ==>
        s.timers[t].phase.Sleeping? && id in s.slot && s.slot[id] == t
  {
    var s' := Step(s, CommitToRelay(id));
    CastKeptExactly(s', id);
    assert forall t :: 0 <= t < |s.timers| && !(id in s.slot && s.slot[id] == t) ==> s'.timers[t] == s.timers[t];
    if id in s.slot {
      assert s'.timers[s.slot[id]] == s.timers[s.slot[id]].(cancelled := true);
    }
    if t :| 0 <= t < |s.timers| && Threatens(s.timers[t], id) && !(s.timers[t].phase.Sleeping? && id in s.slot && s.slot[id] == t) {
      assert Threatens(s'.timers[t], id);
    }
  }

  // ----- Superseded timers -----

  /** A timer that fires after being superseded is harmless exactly for a settled, unarmed message. */
  lemma SupersededFireHarmless(s: State, t: nat)
    requires Enabled(s, TimerFires(t)) && s.timers[t].cancelled
    ensures var id := s.timers[t].id;
      Step(s, TimerFires(t)) == s.(timers := s.timers[t := s.timers[t].(phase := Done)]) <==>
        id !in s.slot && (id in s.outbox ==> s.outbox[id].Terminal())
  {
    var id, s' := s.timers[t].id, Step(s, TimerFires(t));
    if id !in s.slot {
      assert s.slot - {id} == s.slot;
    }
    if id in s.outbox && !s.outbox[id].Terminal() {
      assert s'.outbox[id] == NotDelivered;
    }
    if id in s.slot {
      assert id !in s'.slot;
    }
  }

  /** A timer cancelled while it sleeps never fires, whatever happens next. */
  lemma {:induction false} CancelledSleeperNeverFires(s: State, events: seq<Event>, t: nat)
    requires Runs(s, events)
    requires t < |s.timers| && s.timers[t].cancelled && !s.timers[t].phase.Due?
    ensures TimerFires(t) !in events
    ensures t < |Run(s, events).timers| && !Run(s, events).timers[t].phase.Due?
    decreases |events|
  {
    if events != [] {
      SleeperStep(s, events[0], t);
      CancelledSleeperNeverFires(Step(s, events[0]), events[1..], t);
    }
  }

  lemma SleeperStep(s: State, e: Event, t: nat)
    requires Enabled(s, e)
    requires t < |s.timers| && s.timers[t].cancelled && !s.timers[t].phase.Due?
    ensures e != TimerFires(t)
    ensures var s' := Step(s, e);
      t < |s'.timers| && s'.timers[t].cancelled && !s'.timers[t].phase.Due?
  {
    StepAges(s, e);
    assert Aged(s.timers[t], Step(s, e).timers[t]);
  }

  // ----- An acknowledged message -----

  /** What the router does on its own account: finishing sends, rerouting, running timers. */
  predicate Internal(e: Event) {
    || e.SendEnd? || e.BeginTracking? || e.StartTimeout? || e.ExtendTimeout?
    || e.RerouteStart? || e.RerouteBegin? || e.RerouteEnd? || e.TimerWakes? || e.TimerFires?
  }

  /** A send or a reroute of the message is suspended, or about to be. */
  predicate UnderWay(s: State, id: Id) {
    id in s.sending || id in s.reroute.queued || id in s.reroute.publishing
  }

  ghost predicate AllInternal(events: seq<Event>) {
    forall i :: 0 <= i < |events| ==> Internal(events[i])
  }

  /** Nothing new is sent or rerouted for a settled message by the router itself. */
  lemma NothingStarts(s: State, e: Event, id: Id)
    requires Enabled(s, e) && Internal(e) && id in s.outbox && s.outbox[id].Terminal() && !UnderWay(s, id)
    ensures !UnderWay(Step(s, e), id)
  {
    if e.RerouteStart? {
      assert id !in e.ids;
    }
  }

  lemma AckStep(s: State, e: Event, id: Id)
    requires Enabled(s, e) && Internal(e) && id in s.outbox && s.outbox[id].Acked() && !UnderWay(s, id)
    ensures id in Step(s, e).outbox && Step(s, e).outbox[id] == s.outbox[id]
  {
    StepStatuses(s, e);
  }

  lemma {:induction false} AckSticks(s: State, events: seq<Event>, id: Id)
    requires Runs(s, events) && AllInternal(events)
    requires id in s.outbox && s.outbox[id].Acked() && !UnderWay(s, id)
    ensures var s' := Run(s, events); id in s'.outbox && s'.outbox[id] == s.outbox[id]
    decreases |events|
  {
    if events != [] {
      AckStep(s, events[0], id);
      NothingStarts(s, events[0], id);
      AckSticks(Step(s, events[0]), events[1..], id);
    }
  }

  /** Whether every internal run from here leaves the message as it is. */
  ghost predicate Settled(s: State, id: Id)
    requires id in s.outbox
  {
    forall events :: Runs(s, events) && AllInternal(events) ==>
      var s' := Run(s, events); id in s'.outbox && s'.outbox[id] == s.outbox[id]
  }

  lemma OneStepRun(s: State, e: Event)
    requires Enabled(s, e)
    ensures Runs(s, [e]) && Run(s, [e]) == Step(s, e)
  {
    assert [e][1..] == [] && Runs(Step(s, e), []);
  }

  lemma TwoStepRun(s: State, e: Event, f: Event)
    requires Enabled(s, e) && Enabled(Step(s, e), f)
    ensures Runs(s, [e, f]) && Run(s, [e, f]) == Step(Step(s, e), f)
  {
    assert [e, f][1..] == [f];
    OneStepRun(Step(s, e), f);
  }

  /** A suspended send or reroute can still overwrite the acknowledgement. */
  lemma UnderWayOverwrites(s: State, id: Id) returns (events: seq<Event>)
    requires id in s.outbox && s.outbox[id].Acked() && UnderWay(s, id)
    ensures Runs(s, events) && AllInternal(events)
    ensures id in Run(s, events).outbox && !Run(s, events).outbox[id].Acked()
  {
    if id in s.sending {
      events := [SendEnd(id, Sent)];
      OneStepRun(s, events[0]);
    } else if id in s.reroute.publishing {
      events := [RerouteEnd(id, true)];
      OneStepRun(s, events[0]);
    } else {
      events := [RerouteBegin(id), RerouteEnd(id, true)];
      RerouteRuns(s, id);
    }
  }

  lemma RerouteRuns(s: State, id: Id)
    requires id in s.outbox && id in s.reroute.queued
    ensures Runs(s, [RerouteBegin(id), RerouteEnd(id, true)])
    ensures Run(s, [RerouteBegin(id), RerouteEnd(id, true)]).outbox == s.outbox[id := Cast]
  {
    TwoStepRun(s, RerouteBegin(id), RerouteEnd(id, true));
  }

  /** An acknowledgement is final exactly when neither a send nor a reroute of the message is under way. */
  lemma AckFinalExactly(s: State, id: Id)
    requires id in s.outbox && s.outbox[id].Acked()
    ensures Settled(s, id) <==> !UnderWay(s, id)
  {
    if UnderWay(s, id) {
      var events := UnderWayOverwrites(s, id);
    } else {
      forall events | Runs(s, events) && AllInternal(events)
        ensures var s' := Run(s, events); id in s'.outbox && s'.outbox[id] == s.outbox[id]
      {
        AckSticks(s, events, id);
      }
    }
  }

  /** The events that can take a settled message out of its state. */
  lemma TerminalMovedExactly(s: State, e: Event, id: Id)
    requires Enabled(s, e) && id in s.outbox && s.outbox[id].Terminal()
    ensures id in Step(s, e).outbox
    ensures !Step(s, e).outbox[id].Terminal() <==>
      || e == SendBegin(id)
      || (e.SendEnd? && e.id == id && !e.outcome.NotDelivered?)
      || e == MarkFindingPath(id)
      || e == CommitToRelay(id)
      || e == RerouteEnd(id, true)
  {
    StepStatuses(s, e);
    TerminalStatusMoved(s, e, id);
  }

  lemma TerminalStatusMoved(s: State, e: Event, id: Id)
    requires Enabled(s, e) && id in s.outbox && s.outbox[id].Terminal()
    ensures id in StatusesAfter(s, e)
    ensures !StatusesAfter(s, e)[id].Terminal() <==>
      || e == SendBegin(id)
      || (e.SendEnd? && e.id == id && !e.outcome.NotDelivered?)
      || e == MarkFindingPath(id)
      || e == CommitToRelay(id)
      || e == RerouteEnd(id, true)
  {
  }

  // ----- The runs behind the exceptions -----

  const NO_SENDS: multiset<Id> := multiset{}

  predicate Leads(s: State, e: Event, s': State) {
    Enabled(s, e) && Step(s, e) == s'
  }

  lemma FourSteps(s: State, e1: Event, s1: State, e2: Event, s2: State, e3: Event, s3: State, e4: Event, s4: State)
    requires Leads(s, e1, s1) && Leads(s1, e2, s2) && Leads(s2, e3, s3) && Leads(s3, e4, s4)
    ensures Runs(s, [e1, e2, e3, e4]) && Run(s, [e1, e2, e3, e4]) == s4
  {
    assert [e1, e2, e3, e4][1..] == [e2, e3, e4] && [e2, e3, e4][1..] == [e3, e4];
    TwoStepRun(s2, e3, e4);
    assert Runs(s1, [e2, e3, e4]) && Run(s1, [e2, e3, e4]) == s4;
  }

  lemma FireFails(s: State, t: nat)
    requires Enabled(s, TimerFires(t)) && s.outbox.Keys == {s.timers[t].id} && !s.outbox[s.timers[t].id].Terminal()
    ensures Step(s, TimerFires(t)).outbox == map[s.timers[t].id := NotDelivered]
  {
  }

  /** One tracked message at `status`, with its slot and its timers. */
  function Tracking(id: Id, status: Status, slot: map<Id, nat>, timers: seq<Timer>): State {
    State(map[id := status], slot, timers, NO_SENDS, NO_REROUTE)
  }

  /** The same for a message that went through `send`. */
  function Sending(id: Id, status: Status, slot: map<Id, nat>, timers: seq<Timer>, sends: multiset<Id>): State {
    State(map[id := status], slot, timers, sends, Reroute({id}, {}, multiset{}, multiset{}))
  }

  lemma TrackedAndArmed(id: Id)
    ensures Leads(Start, BeginTracking(id), Tracking(id, Sent, map[], []))
    ensures Leads(Tracking(id, Sent, map[], []), StartTimeout(id), Tracking(id, Sent, map[id := 0], [Timer(id, Sleeping, false)]))
  {
  }

  lemma Wakes(id: Id)
    ensures Leads(Tracking(id, Sent, map[id := 0], [Timer(id, Sleeping, false)]), TimerWakes(0),
                  Tracking(id, Sent, map[id := 0], [Timer(id, Due, false)]))
  {
  }

  lemma CommitLate(id: Id)
    ensures Leads(Tracking(id, Sent, map[id := 0], [Timer(id, Due, false)]), CommitToRelay(id),
                  Tracking(id, Cast, map[], [Timer(id, Due, true)]))
  {
  }

  /** A timer past its check when the relay takes the message still fails it. */
  lemma LateTimerFailsCast(id: Id)
    ensures var before := [BeginTracking(id), StartTimeout(id), TimerWakes(0), CommitToRelay(id)];
      && Runs(Start, before) && Run(Start, before).outbox == map[id := Cast]
      && Enabled(Run(Start, before), TimerFires(0))
      && Step(Run(Start, before), TimerFires(0)).outbox == map[id := NotDelivered]
  {
    TrackedAndArmed(id);
    Wakes(id);
    CommitLate(id);
    var s4 := Tracking(id, Cast, map[], [Timer(id, Due, true)]);
    FourSteps(Start, BeginTracking(id), Tracking(id, Sent, map[], []),
              StartTimeout(id), Tracking(id, Sent, map[id := 0], [Timer(id, Sleeping, false)]),
              TimerWakes(0), Tracking(id, Sent, map[id := 0], [Timer(id, Due, false)]),
              CommitToRelay(id), s4);
    FireFails(s4, 0);
  }

  lemma SendsFirst(id: Id)
    ensures Leads(Start, SendBegin(id), Sending(id, Sent, map[], [], multiset{id}))
  {
  }

  lemma SendExtended(id: Id)
    ensures Leads(Sending(id, Sent, map[], [], multiset{id}), ExtendTimeout(id),
                  Sending(id, Sent, map[id := 0], [Timer(id, Sleeping, false)], multiset{id}))
  {
  }

  lemma SendCast(id: Id)
    ensures Leads(Sending(id, Sent, map[id := 0], [Timer(id, Sleeping, false)], multiset{id}), SendEnd(id, Cast),
                  Sending(id, Cast, map[id := 0], [Timer(id, Sleeping, false)], NO_SENDS))
  {
  }

  lemma SentWakes(id: Id, status: Status)
    ensures Leads(Sending(id, status, map[id := 0], [Timer(id, Sleeping, false)], NO_SENDS), TimerWakes(0),
                  Sending(id, status, map[id := 0], [Timer(id, Due, false)], NO_SENDS))
  {
  }

  /** Extending during a send that ends at the relay leaves a timer that fails the message. */
  lemma ExtendDuringSendFailsCast(id: Id)
    ensures var before := [SendBegin(id), ExtendTimeout(id), SendEnd(id, Cast), TimerWakes(0)];
      && Runs(Start, before) && Run(Start, before).outbox == map[id := Cast]
      && Enabled(Run(Start, before), TimerFires(0))
      && Step(Run(Start, before), TimerFires(0)).outbox == map[id := NotDelivered]
  {
    SendsFirst(id);
    SendExtended(id);
    SendCast(id);
    SentWakes(id, Cast);
    var s4 := Sending(id, Cast, map[id := 0], [Timer(id, Due, false)], NO_SENDS);
    FourSteps(Start, SendBegin(id), Sending(id, Sent, map[], [], multiset{id}),
              ExtendTimeout(id), Sending(id, Sent, map[id := 0], [Timer(id, Sleeping, false)], multiset{id}),
              SendEnd(id, Cast), Sending(id, Cast, map[id := 0], [Timer(id, Sleeping, false)], NO_SENDS),
              TimerWakes(0), s4);
    FireFails(s4, 0);
  }

  lemma AckedInSend(id: Id)
    ensures Leads(Sending(id, Sent, map[], [], multiset{id}), ConfirmDelivery(id, 0),
                  Sending(id, Delivered, map[], [], multiset{id}))
  {
  }

  lemma SendEnds(id: Id, status: Status)
    ensures Leads(Sending(id, status, map[], [], multiset{id}), SendEnd(id, Sent),
                  Sending(id, Sent, map[id := 0], [Timer(id, Sleeping, false)], NO_SENDS))
  {
  }

  /** An acknowledgement that overtakes the end of its own send is overwritten and times out. */
  lemma AckDuringSendIsLost(id: Id)
    ensures var before := [SendBegin(id), ConfirmDelivery(id, 0), SendEnd(id, Sent), TimerWakes(0)];
      && Runs(Start, before)
      && Enabled(Run(Start, before), TimerFires(0))
      && Step(Run(Start, before), TimerFires(0)).outbox == map[id := NotDelivered]
  {
    SendsFirst(id);
    AckedInSend(id);
    SendEnds(id, Delivered);
    SentWakes(id, Sent);
    var s4 := Sending(id, Sent, map[id := 0], [Timer(id, Due, false)], NO_SENDS);
    FourSteps(Start, SendBegin(id), Sending(id, Sent, map[], [], multiset{id}),
              ConfirmDelivery(id, 0), Sending(id, Delivered, map[], [], multiset{id}),
              SendEnd(id, Sent), Sending(id, Sent, map[id := 0], [Timer(id, Sleeping, false)], NO_SENDS),
              TimerWakes(0), s4);
    FireFails(s4, 0);
  }

  // ----- An orphan -----

  lemma Superseded(id: Id)
    ensures Leads(Tracking(id, Sent, map[id := 0], [Timer(id, Due, false)]), ExtendTimeout(id),
                  Tracking(id, Sent, map[id := 1], [Timer(id, Due, true), Timer(id, Sleeping, false)]))
  {
  }

  lemma Unseated(id: Id)
    ensures Leads(Tracking(id, Sent, map[id := 1], [Timer(id, Due, true), Timer(id, Sleeping, false)]), TimerFires(0),
                  Tracking(id, NotDelivered, map[], [Timer(id, Done, true), Timer(id, Sleeping, false)]))
  {
  }

  lemma Loose(id: Id, timers: seq<Timer>)
    ensures Leads(Tracking(id, NotDelivered, map[], timers), MarkFindingPath(id), Tracking(id, FindingPath, map[], timers))
    ensures Leads(Tracking(id, FindingPath, map[], timers), CommitToRelay(id), Tracking(id, Cast, map[], timers))
  {
  }

  lemma LooseWakes(id: Id)
    ensures Leads(Tracking(id, Cast, map[], [Timer(id, Done, true), Timer(id, Sleeping, false)]), TimerWakes(1),
                  Tracking(id, Cast, map[], [Timer(id, Done, true), Timer(id, Due, false)]))
  {
  }

  /**
   A timer that fires after an extension cancelled it drops the slot of its successor,
   and a later commit cannot cancel what no slot names.
   */
  lemma OrphanSurvivesCommit(id: Id)
    ensures var before := [BeginTracking(id), StartTimeout(id), TimerWakes(0), ExtendTimeout(id)];
      var after := [TimerFires(0), MarkFindingPath(id), CommitToRelay(id), TimerWakes(1)];
      && Runs(Start, before) && Runs(Run(Start, before), after)
      && var s := Run(Run(Start, before), after);
        s.outbox == map[id := Cast] && CastTimed(s, id) && Enabled(s, TimerFires(1))
  {
    TrackedAndArmed(id);
    Wakes(id);
    Superseded(id);
    FourSteps(Start, BeginTracking(id), Tracking(id, Sent, map[], []),
              StartTimeout(id), Tracking(id, Sent, map[id := 0], [Timer(id, Sleeping, false)]),
              TimerWakes(0), Tracking(id, Sent, map[id := 0], [Timer(id, Due, false)]),
              ExtendTimeout(id), Tracking(id, Sent, map[id := 1], [Timer(id, Due, true), Timer(id, Sleeping, false)]));
    OrphanAfter(id);
  }

  lemma OrphanAfter(id: Id)
    ensures var s := Tracking(id, Sent, map[id := 1], [Timer(id, Due, true), Timer(id, Sleeping, false)]);
      var after := [TimerFires(0), MarkFindingPath(id), CommitToRelay(id), TimerWakes(1)];
      && Runs(s, after)
      && var s' := Run(s, after); s'.outbox == map[id := Cast] && CastTimed(s', id) && Enabled(s', TimerFires(1))
  {
    var loose := [Timer(id, Done, true), Timer(id, Sleeping, false)];
    var s' := Tracking(id, Cast, map[], [Timer(id, Done, true), Timer(id, Due, false)]);
    Unseated(id);
    Loose(id, loose);
    LooseWakes(id);
    FourSteps(Tracking(id, Sent, map[id := 1], [Timer(id, Due, true), Timer(id, Sleeping, false)]),
              TimerFires(0), Tracking(id, NotDelivered, map[], loose),
              MarkFindingPath(id), Tracking(id, FindingPath, map[], loose),
              CommitToRelay(id), Tracking(id, Cast, map[], loose), TimerWakes(1), s');
    assert LiveFor(s', 1, id);
  }

  // ----- A reroute -----

  /** Sent and armed, its reroute queued or awaiting the relay. */
  function Rerouting(id: Id, reroute: Reroute): State {
    State(map[id := Sent], map[id := 0], [Timer(id, Sleeping, false)], NO_SENDS, reroute)
  }

  lemma RerouteQueues(id: Id)
    ensures Leads(Sending(id, Sent, map[id := 0], [Timer(id, Sleeping, false)], NO_SENDS), RerouteStart({id}),
                  Rerouting(id, Reroute({id}, {}, multiset{id}, multiset{})))
  {
    assert multiset({id}) == multiset{id};
  }

  lemma ReroutePublishes(id: Id)
    ensures Leads(Rerouting(id, Reroute({id}, {}, multiset{id}, multiset{})), RerouteBegin(id),
                  Rerouting(id, Reroute({id}, {id}, multiset{}, multiset{id})))
  {
  }

  /** An acknowledgement that lands while a reroute publishes is overwritten by the relay hand-off. */
  lemma AckDuringRerouteIsLost(id: Id)
    ensures var before := [SendBegin(id), SendEnd(id, Sent), RerouteStart({id}), RerouteBegin(id)];
      var after := [ConfirmDelivery(id, 0), RerouteEnd(id, true)];
      && Runs(Start, before) && Runs(Run(Start, before), after)
      && Run(Run(Start, before), after).outbox == map[id := Cast]
  {
    SendsFirst(id);
    SendEnds(id, Sent);
    RerouteQueues(id);
    ReroutePublishes(id);
    FourSteps(Start, SendBegin(id), Sending(id, Sent, map[], [], multiset{id}),
              SendEnd(id, Sent), Sending(id, Sent, map[id := 0], [Timer(id, Sleeping, false)], NO_SENDS),
              RerouteStart({id}), Rerouting(id, Reroute({id}, {}, multiset{id}, multiset{})),
              RerouteBegin(id), Rerouting(id, Reroute({id}, {id}, multiset{}, multiset{id})));
    RerouteOverwrites(id, Reroute({id}, {id}, multiset{}, multiset{id}));
  }

  lemma RerouteOverwrites(id: Id, reroute: Reroute)
    requires id in reroute.publishing
    ensures var after := [ConfirmDelivery(id, 0), RerouteEnd(id, true)];
      Runs(Rerouting(id, reroute), after) && Run(Rerouting(id, reroute), after).outbox == map[id := Cast]
  {
    TwoStepRun(Rerouting(id, reroute), ConfirmDelivery(id, 0), RerouteEnd(id, true));
  }
}
