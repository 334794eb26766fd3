/**
 The imperative form of the hold protocol: the conversation screen's fields updated in
 place, one method per main-actor segment of `beginPTT`, `endPTT` and
 `teardownPTTIfHolding`. Each method is proved to take exactly the protocol's step.
 */
module StreamViewModel {
  import opened Wrappers
  import opened CaptureEngine
  import opened PttHold

  class StreamView {
    const inbox: bool
    const pttCapture: PttCaptureEngine

    var pttHolding: bool
    var pttHoldToken: nat
    var pttSessionID: Option<SessionId>
    var showWalkie: bool
    /** `WalkieGlobeView.holding`, the gesture-local press guard. */
    var globeHolding: bool
    var tasks: map<nat, Stage>

    ghost var openedBy: map<SessionId, nat>
    ghost var sessionOf: map<nat, SessionId>
    /** Closes sent so far, per session. */
    var closed: map<SessionId, nat>
    /** Holds whose recording went out as a note, oldest first. */
    var notes: seq<nat>
    /** Every segment run so far. */
    ghost var trace: seq<Event>

    ghost function View(): State
      reads this, pttCapture
    {
      State(pttHolding, pttHoldToken, pttSessionID, globeHolding, showWalkie, inbox,
            pttCapture.View(), tasks, openedBy, sessionOf, closed, notes)
    }

    /** The screen is where the protocol is after the trace. */
    ghost predicate Valid()
      reads this, pttCapture
    {
      View() == Run(true, inbox, trace)
    }

    /** What the protocol promises, of this screen. */
    ghost predicate Safe()
      reads this, pttCapture
    {
      Conserved(View()) && SlotOwned(View()) && MicOwned(View()) && NotesOk(View())
    }

    constructor (inbox: bool)
      ensures Valid() && Safe() && trace == [] && this.inbox == inbox && fresh(pttCapture)
    {
      this.inbox := inbox;
      pttCapture := new PttCaptureEngine();
      pttHolding, pttHoldToken, pttSessionID := false, 0, None;
      showWalkie, globeHolding := false, false;
      tasks, openedBy, sessionOf, closed, notes, trace := map[], map[], map[], map[], [], [];
    }

    function Opened(t: nat, session: Option<SessionId>): Event {
      if session.Some? then OpenSucceeds(t, session.value) else OpenFails(t)
    }

    lemma Extends(es: seq<Event>, e: Event)
      ensures Run(true, inbox, es + [e]) == Step(true, Run(true, inbox, es), e)
      ensures var s := Run(true, inbox, es + [e]);
        Conserved(s) && SlotOwned(s) && MicOwned(s) && NotesOk(s)
    {
      RunSnoc(true, inbox, es, e);
      RunKeeps(inbox, es + [e]);
    }

    /** Notes the segment that has just run. */
    ghost method Record(before: State, e: Event)
      requires before == Run(true, inbox, trace) && View() == Step(true, before, e)
      modifies this`trace
      ensures trace == old(trace) + [e] && Valid() && Safe()
    {
      Extends(trace, e);
      trace := trace + [e];
    }

    method ClosePTT(sid: SessionId)
      modifies this`closed
      ensures View() == CloseLive(old(View()), Some(sid))
    {
      if inbox {
        closed := closed[sid := (if sid in closed then closed[sid] else 0) + 1];
      }
    }

    /** The drag gesture's `onChanged`, then `beginPTT` up to the spawned task. */
    method PressDown()
      requires Valid()
      modifies this
      ensures View() == Step(true, old(View()), Press)
      ensures trace == old(trace) + [Press] && Valid() && Safe()
    {
      ghost var before := View();
      if showWalkie && !globeHolding {
        globeHolding := true;
        pttHolding := true;
        pttHoldToken := pttHoldToken + 1;
        tasks := tasks[pttHoldToken := Spawned];
      }
      Record(before, Press);
    }

    /** The drag gesture's `onEnded`, then `endPTT`. */
    method PressUp(sentFrames: nat, readable: bool)
      requires Valid()
      modifies this, pttCapture
      ensures View() == Step(true, old(View()), Release(sentFrames, readable))
      ensures trace == old(trace) + [Release(sentFrames, readable)] && Valid() && Safe()
    {
      ghost var before := View();
      PressUpSegment(sentFrames, readable);
      Record(before, Release(sentFrames, readable));
    }

    method PressUpSegment(sentFrames: nat, readable: bool)
      modifies this, pttCapture
      ensures View() == Step(true, old(View()), Release(sentFrames, readable))
      ensures trace == old(trace)
    {
      if !showWalkie {
        return;
      }
      globeHolding := false;
      if !pttHolding {
        return;
      }
      pttHolding := false;
      var data := pttCapture.StopOwned(pttHoldToken, sentFrames, readable);
      var sessionID := pttSessionID;
      pttSessionID := None;
      if !inbox {
        return;
      }
      if sessionID.Some? {
        ClosePTT(sessionID.value);
      }
      if data {
        notes := notes + [pttHoldToken];
      }
    }

    method TeardownPTTIfHolding()
      modifies this`pttHolding, this`pttSessionID, this`closed, pttCapture
      ensures View() == Teardown(old(View()))
    {
      if !pttHolding {
        return;
      }
      pttHolding := false;
      pttCapture.CancelUnowned();
      if pttSessionID.Some? && inbox {
        var sessionID := pttSessionID.value;
        pttSessionID := None;
        ClosePTT(sessionID);
      }
    }

    method ShowWalkie()
      requires Valid()
      modifies this
      ensures View() == Step(true, old(View()), ShowCover)
      ensures trace == old(trace) + [ShowCover] && Valid() && Safe()
    {
      ghost var before := View();
      if !showWalkie {
        showWalkie := true;
        globeHolding := false;
      }
      Record(before, ShowCover);
    }

    method CoverDismissed()
      requires Valid()
      modifies this, pttCapture
      ensures View() == Step(true, old(View()), DismissCover)
      ensures trace == old(trace) + [DismissCover] && Valid() && Safe()
    {
      ghost var before := View();
      if showWalkie {
        showWalkie := false;
        TeardownPTTIfHolding();
      }
      Record(before, DismissCover);
    }

    method ScreenPopped()
      requires Valid()
      modifies this, pttCapture
      ensures View() == Step(true, old(View()), PopScreen)
      ensures trace == old(trace) + [PopScreen] && Valid() && Safe()
    {
      ghost var before := View();
      TeardownPTTIfHolding();
      Record(before, PopScreen);
    }

    method TaskEntry(t: nat)
      requires Valid()
      modifies this
      ensures View() == Step(true, old(View()), GateA(t))
      ensures trace == old(trace) + [GateA(t)] && Valid() && Safe()
    {
      ghost var before := View();
      TaskEntrySegment(t);
      Record(before, GateA(t));
    }

    method TaskEntrySegment(t: nat)
      modifies this`tasks
      ensures View() == Step(true, old(View()), GateA(t))
    {
      if t in tasks && tasks[t].Spawned? {
        tasks := tasks[t := if pttHolding && pttHoldToken == t then Opening else Done];
      }
    }

    /** `openPTT` returns a session, or throws and degrades to note-only. */
    method OpenReturns(t: nat, session: Option<SessionId>)
      requires Valid()
      requires t in tasks && tasks[t].Opening?
      requires session.Some? ==> inbox && session.value !in openedBy
      modifies this
      ensures View() == Step(true, old(View()), Opened(t, session))
      ensures trace == old(trace) + [Opened(t, session)] && Valid() && Safe()
    {
      ghost var before := View();
      tasks := tasks[t := BeforeGateB(session)];
      if session.Some? {
        openedBy := openedBy[session.value := t];
        sessionOf := sessionOf[t := session.value];
      }
      Record(before, Opened(t, session));
    }

    method EnterStartSegment(t: nat)
      requires t in tasks && tasks[t].BeforeStart?
      modifies this`tasks, pttCapture
      ensures View() == Step(true, old(View()), EntersStart(t))
    {
      var live := tasks[t].live;
      var suspended := pttCapture.BeginStart(t);
      tasks := tasks[t := if suspended then InStart(live) else BeforeGateC(live)];
    }

    method AfterOpen(t: nat)
      requires Valid()
      requires t in tasks && tasks[t].BeforeGateB?
      modifies this, pttCapture
      ensures View() == Step(true, old(View()), GateB(t, false))
      ensures trace == old(trace) + [GateB(t, false)] && Valid() && Safe()
    {
      ghost var before := View();
      AfterOpenSegment(t);
      Record(before, GateB(t, false));
    }

    method AfterOpenSegment(t: nat)
      requires t in tasks && tasks[t].BeforeGateB?
      modifies this, pttCapture
      ensures View() == Step(true, old(View()), GateB(t, false))
      ensures trace == old(trace)
    {
      var live := tasks[t].live;
      if !(pttHolding && pttHoldToken == t) {
        if live.Some? {
          ClosePTT(live.value);
        }
        tasks := tasks[t := Done];
        return;
      }
      pttSessionID := live;
      tasks := tasks[t := BeforeStart(live)];
      EnterStartSegment(t);
    }

    method StartReturns(t: nat, granted: bool, hardwareOk: bool)
      requires Valid()
      requires t in tasks && tasks[t].InStart?
      modifies this, pttCapture
      ensures View() == Step(true, old(View()), StartFinishes(t, granted, hardwareOk))
      ensures trace == old(trace) + [StartFinishes(t, granted, hardwareOk)] && Valid() && Safe()
    {
      ghost var before := View();
      var live := tasks[t].live;
      pttCapture.ResumeStart(live.Some?, granted, hardwareOk);
      tasks := tasks[t := BeforeGateC(live)];
      Record(before, StartFinishes(t, granted, hardwareOk));
    }

    /** Gate C, then the permission-denial surface. */
    method AfterStart(t: nat)
      requires Valid()
      requires t in tasks && tasks[t].BeforeGateC?
      modifies this, pttCapture
      ensures View() == Step(true, old(View()), GateC(t))
      ensures trace == old(trace) + [GateC(t)] && Valid() && Safe()
    {
      ghost var before := View();
      AfterStartSegment(t);
      Record(before, GateC(t));
    }

    method AfterStartSegment(t: nat)
      requires t in tasks && tasks[t].BeforeGateC?
      modifies this, pttCapture
      ensures View() == Step(true, old(View()), GateC(t))
      ensures trace == old(trace)
    {
      var live := tasks[t].live;
      tasks := tasks[t := Done];
      if !(pttHolding && pttHoldToken == t) {
        var _ := pttCapture.StopOwned(t, 0, false);
        if live.Some? && pttSessionID == live {
          pttSessionID := None;
          ClosePTT(live.value);
        }
        return;
      }
      if pttCapture.permissionDenied {
        pttHolding := false;
        pttSessionID := None;
        if live.Some? {
          ClosePTT(live.value);
        }
      }
    }
  }
}
