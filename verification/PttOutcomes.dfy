/** What a hold achieves: when one begins and ends, records, and leaves a note, over every run of the protocol. */
module PttOutcomes {
  import opened Wrappers
  import opened CaptureEngine
  import opened PttHold

  // ----- What a step leaves alone -----

  lemma TeardownEffect(s: State)
    ensures var s' := Teardown(s);
      && s' == s.(holding := false, slot := s'.slot, engine := s'.engine, closed := s'.closed)
      && s'.engine == (if s.holding then Cancel(s.engine) else s.engine)
  {
  }

  lemma GateBEffect(s: State, t: nat, live: Option<SessionId>, gap: bool)
    ensures var s' := GateBStep(s, t, live, gap);
      s' == s.(slot := s'.slot, engine := s'.engine, closed := s'.closed, tasks := s'.tasks)
  {
  }

  lemma GateCLeaves(s: State, t: nat)
    requires t in s.tasks && s.tasks[t].BeforeGateC?
    ensures var s' := Step(true, s, GateC(t));
      && s'.token == s.token && s'.inbox == s.inbox && s'.notes == s.notes
      && (s'.holding <==> s.holding && !Denied(s, GateC(t)))
  {
    GateCEffect(s, t, s.tasks[t].live);
  }

  /** A task's step sends no note and begins no hold; it ends one only at a denied microphone. */
  lemma TaskEffect(s: State, e: Event)
    requires !FromSurface(e)
    ensures var s' := Step(true, s, e);
      && s'.token == s.token && s'.inbox == s.inbox && s'.notes == s.notes
      && (s'.holding <==> s.holding && !Denied(s, e))
  {
    if e.t in s.tasks {
      if e.GateB? && s.tasks[e.t].BeforeGateB? {
        GateBEffect(s, e.t, s.tasks[e.t].live, e.gap);
      } else if e.GateC? && s.tasks[e.t].BeforeGateC? {
        GateCLeaves(s, e.t);
      } else {
        QuietTask(s, e);
      }
    }
  }

  /** A task's other steps are about the task and the engine. */
  lemma QuietTask(s: State, e: Event)
    requires !FromSurface(e) && e.t in s.tasks
    requires !(e.GateB? && s.tasks[e.t].BeforeGateB?) && !(e.GateC? && s.tasks[e.t].BeforeGateC?)
    ensures var s' := Step(true, s, e);
      s'.token == s.token && s'.inbox == s.inbox && s'.notes == s.notes && s'.holding == s.holding
  {
    if e.GateA? {
      EnteringTask(s, e.t);
    } else if e.OpenFails? {
      UnopenedTask(s, e.t);
    } else if e.OpenSucceeds? {
      OpenedTask(s, e.t, e.sid);
    } else if e.EntersStart? || e.StartFinishes? {
      StartingTask(s, e);
    }
  }

  lemma EnteringTask(s: State, t: nat)
    ensures Step(true, s, GateA(t)) == s.(tasks := Step(true, s, GateA(t)).tasks)
  {
  }

  lemma UnopenedTask(s: State, t: nat)
    ensures Step(true, s, OpenFails(t)) == s.(tasks := Step(true, s, OpenFails(t)).tasks)
  {
  }

  lemma OpenedTask(s: State, t: nat, sid: SessionId)
    ensures var s' := Step(true, s, OpenSucceeds(t, sid));
      s' == s.(tasks := s'.tasks, openedBy := s'.openedBy, sessionOf := s'.sessionOf)
  {
  }

  lemma StartingTask(s: State, e: Event)
    requires e.EntersStart? || e.StartFinishes?
    ensures var s' := Step(true, s, e);
      s' == s.(tasks := s'.tasks, engine := s'.engine)
  {
  }

  /** The current hold's task finds the microphone denied behind Gate C. */
  predicate Denied(s: State, e: Event) {
    e.GateC? && e.t == s.token && e.t in s.tasks && s.tasks[e.t].BeforeGateC? && s.engine.permissionDenied
  }

  /** Leaving is a teardown: no note, the microphone off, the hold over. */
  lemma LeavingEffect(s: State, e: Event)
    requires e.DismissCover? || e.PopScreen?
    ensures var s' := Step(true, s, e);
      && s'.token == s.token && s'.inbox == s.inbox && s'.notes == s.notes
      && (s.cover && s.holding ==> !s'.holding && !s'.engine.phase.Recording?)
      && (s'.holding ==> s.holding)
  {
    TeardownEffect(s.(cover := false));
    TeardownEffect(s);
    assert s.(cover := s.cover) == s;
  }

  // ----- What else every run keeps -----

  /** A recording knows whether its hold opened a session; an abort was asked for a hold that is over. */
  ghost predicate EngineTells(s: State) {
    && (s.engine.phase.Recording? ==>
          && s.engine.owner in s.tasks && (s.tasks[s.engine.owner].BeforeGateC? || s.tasks[s.engine.owner].Done?)
          && (s.engine.liveHold <==> s.engine.owner in s.sessionOf))
    && (s.engine.abortRequested ==> !Current(s, s.engine.owner))
  }

  lemma TeardownTells(s: State, cover: bool)
    requires EngineTells(s)
    ensures EngineTells(Teardown(s.(cover := cover)))
  {
    TeardownEffect(s.(cover := cover));
  }

  lemma ReleaseTells(s: State, sentFrames: nat, readable: bool)
    requires EngineTells(s)
    ensures EngineTells(EndHold(s.(pressed := false), sentFrames, readable))
  {
  }

  lemma SurfaceTells(s: State, e: Event)
    requires EngineTells(s) && MicInv(s) && FromSurface(e)
    ensures EngineTells(Step(true, s, e))
  {
    match e
    case DismissCover => TeardownTells(s, false);
    case PopScreen => TeardownTells(s, s.cover);
    case Release(n, readable) => ReleaseTells(s, n, readable);
    case _ =>
  }

  /** A task past its open knows its own session. */
  lemma LiveIsOwn(s: State, t: nat)
    requires SessionInv(s) && t in s.tasks && PastGateB(s.tasks[t])
    ensures s.tasks[t].live.Some? <==> t in s.sessionOf
    ensures t in s.sessionOf ==> s.tasks[t].live == Some(s.sessionOf[t])
  {
  }

  lemma EnterTells(s: State, t: nat, live: Option<SessionId>)
    requires EngineTells(s) && MicInv(s) && t in s.tasks && (s.tasks[t].BeforeStart? || s.tasks[t].BeforeGateB?)
    ensures EngineTells(EnterStartStep(s, t, live))
  {
  }

  lemma FinishTells(s: State, t: nat, granted: bool, hardwareOk: bool)
    requires EngineTells(s) && SessionInv(s) && MicInv(s) && t in s.tasks && s.tasks[t].InStart?
    ensures EngineTells(Step(true, s, StartFinishes(t, granted, hardwareOk)))
  {
    LiveIsOwn(s, t);
  }

  lemma GateCTells(s: State, t: nat)
    requires EngineTells(s) && MicInv(s) && t in s.tasks && s.tasks[t].BeforeGateC?
    ensures EngineTells(GateCStep(s, t, s.tasks[t].live))
  {
    GateCEffect(s, t, s.tasks[t].live);
    assert GateCStep(s, t, s.tasks[t].live).sessionOf == s.sessionOf;
  }

  lemma GateBTells(s: State, t: nat, gap: bool)
    requires EngineTells(s) && MicInv(s) && t in s.tasks && s.tasks[t].BeforeGateB?
    ensures EngineTells(GateBStep(s, t, s.tasks[t].live, gap))
  {
    var live := s.tasks[t].live;
    if Current(s, t) {
      var s1 := s.(slot := live, tasks := s.tasks[t := BeforeStart(live)]);
      MicKeptByMove(s, s1, t, BeforeStart(live));
      EnterTells(s1, t, live);
    }
  }

  lemma TaskTells(s: State, e: Event)
    requires EngineTells(s) && SessionInv(s) && MicInv(s) && !FromSurface(e) && e.t in s.tasks
    ensures EngineTells(Step(true, s, e))
  {
    match e
    case GateB(t, gap) =>
      if s.tasks[t].BeforeGateB? {
        GateBTells(s, t, gap);
      }
    case EntersStart(t) =>
      if s.tasks[t].BeforeStart? {
        EnterTells(s, t, s.tasks[t].live);
      }
    case StartFinishes(t, granted, hardwareOk) =>
      if s.tasks[t].InStart? {
        FinishTells(s, t, granted, hardwareOk);
      }
    case GateC(t) =>
      if s.tasks[t].BeforeGateC? {
        GateCTells(s, t);
      }
    case _ =>
  }

  lemma {:induction false} RunTells(inbox: bool, es: seq<Event>)
    ensures var s := Run(true, inbox, es);
      SessionInv(s) && MicInv(s) && EngineTells(s) && s.inbox == inbox
  {
    RunKeeps(inbox, es);
    if es != [] {
      var front, e := es[..|es| - 1], es[|es| - 1];
      RunTells(inbox, front);
      if FromSurface(e) {
        SurfaceTells(Run(true, inbox, front), e);
      } else if e.t in Run(true, inbox, front).tasks {
        TaskTells(Run(true, inbox, front), e);
      }
      StepInbox(Run(true, inbox, front), e);
    }
  }

  lemma StepInbox(s: State, e: Event)
    ensures Step(true, s, e).inbox == s.inbox
  {
    if !FromSurface(e) {
      TaskEffect(s, e);
    } else if e.DismissCover? || e.PopScreen? {
      LeavingEffect(s, e);
    }
  }

  // ----- When a hold begins and ends -----

  /** Nothing but a press of an unpressed globe under its cover begins a hold, and it always does. */
  lemma HoldBeginsExactly(inbox: bool, es: seq<Event>, e: Event)
    requires !Run(true, inbox, es).holding
    ensures var s, s' := Run(true, inbox, es), Run(true, inbox, es + [e]);
      && (s'.holding <==> e.Press? && s.cover && !s.pressed)
      && (s'.holding ==> s'.token == s.token + 1 && s'.tasks == s.tasks[s'.token := Spawned])
      && (!s'.holding ==> s'.token == s.token)
  {
    var s := Run(true, inbox, es);
    RunSnoc(true, inbox, es, e);
    if !FromSurface(e) {
      TaskEffect(s, e);
    } else if e.DismissCover? || e.PopScreen? {
      LeavingEffect(s, e);
    }
  }

  lemma EndsStep(s: State, e: Event)
    requires s.holding && s.pressed && s.cover
    ensures var s' := Step(true, s, e);
      && (!s'.holding <==> e.Release? || e.DismissCover? || e.PopScreen? || Denied(s, e))
      && s'.token == s.token && (e.DismissCover? || e.PopScreen? ==> !s'.engine.phase.Recording?)
  {
    if !FromSurface(e) {
      TaskEffect(s, e);
    } else if e.DismissCover? || e.PopScreen? {
      LeavingEffect(s, e);
    }
  }

  /**
   A hold ends by its release, its cover or screen going away, or a denied microphone, and by
   nothing else; its session is then closed once, or still with its task before Gate B. A
   surface that goes away leaves no microphone on, whoever owned it.
   */
  lemma HoldEndsExactly(inbox: bool, es: seq<Event>, e: Event)
    requires Run(true, inbox, es).holding
    ensures var s, s' := Run(true, inbox, es), Run(true, inbox, es + [e]);
      && (!s'.holding <==> e.Release? || e.DismissCover? || e.PopScreen? || Denied(s, e))
      && s'.token == s.token
      && (e.DismissCover? || e.PopScreen? ==> !s'.engine.phase.Recording?)
    ensures var s' := Run(true, inbox, es + [e]);
      !s'.holding ==> s'.slot.None? && (s'.token in s'.sessionOf ==>
        var sid := s'.sessionOf[s'.token];
        sid in s'.openedBy && (Closes(s', sid) == 1 || InFlight(s', sid)))
  {
    RunTells(inbox, es);
    RunTells(inbox, es + [e]);
    RunSnoc(true, inbox, es, e);
    EndsStep(Run(true, inbox, es), e);
    var s' := Run(true, inbox, es + [e]);
    if !s'.holding && s'.token in s'.sessionOf {
      assert Places(s', s'.sessionOf[s'.token]) == 1;
    }
  }

  // ----- Notes -----

  lemma OtherStepSendsNone(s: State, e: Event)
    requires !e.Release?
    ensures Step(true, s, e).notes == s.notes
  {
    if !FromSurface(e) {
      TaskEffect(s, e);
    } else if e.DismissCover? || e.PopScreen? {
      LeavingEffect(s, e);
    }
  }

  lemma ReleaseNote(s: State, n: nat, readable: bool)
    requires SessionInv(s) && EngineTells(s)
    ensures Step(true, s, Release(n, readable)).notes ==
      if s.holding && s.inbox && s.engine.phase.Recording? && s.engine.owner == s.token
         && readable && (s.token in s.sessionOf ==> n < 25)
      then s.notes + [s.token] else s.notes
  {
  }

  /**
   A step sends a note exactly if it is the release of a hold that is being recorded, the
   recording can be read, and the hold opened no session or sent fewer than 25 frames over it.
   */
  lemma NoteSentExactly(inbox: bool, es: seq<Event>, e: Event)
    ensures var s := Run(true, inbox, es);
      Run(true, inbox, es + [e]).notes ==
        if e.Release? && s.holding && inbox && s.engine.phase.Recording? && s.engine.owner == s.token
           && e.readable && (s.token in s.sessionOf ==> e.sentFrames < 25)
        then s.notes + [s.token] else s.notes
  {
    RunTells(inbox, es);
    RunSnoc(true, inbox, es, e);
    if e.Release? {
      ReleaseNote(Run(true, inbox, es), e.sentFrames, e.readable);
    } else {
      OtherStepSendsNone(Run(true, inbox, es), e);
    }
  }

  // ----- The microphone -----

  /**
   Where `start` finishes for a hold still held, it records for that hold exactly if the
   microphone was granted and the hardware came up. Where nothing suspends between the slot
   write and `start`, it records for no other.
   */
  lemma StartRecordsExactly(inbox: bool, es: seq<Event>, t: nat, granted: bool, hardwareOk: bool)
    requires var s := Run(true, inbox, es); t in s.tasks && s.tasks[t].InStart?
    ensures var s, e' := Run(true, inbox, es), Run(true, inbox, es + [StartFinishes(t, granted, hardwareOk)]).engine;
      && (Current(s, t) ==> (e'.phase.Recording? <==> granted && hardwareOk))
      && (NoGap(es) ==> (e'.phase.Recording? <==> granted && hardwareOk && Current(s, t)))
      && (e'.phase.Recording? ==> e'.owner == t)
      && !e'.phase.Starting? && (e'.permissionDenied <==> !granted)
  {
    RunTells(inbox, es);
    RunSnoc(true, inbox, es, StartFinishes(t, granted, hardwareOk));
    if NoGap(es) {
      MicrophoneOnOnlyWhileHeld(inbox, es);
    }
  }

  /** The hold whose microphone was denied is over after Gate C, its session closed; a granted one goes on. */
  lemma DenialEndsHold(inbox: bool, es: seq<Event>, t: nat, granted: bool, hardwareOk: bool)
    requires var s := Run(true, inbox, es); t in s.tasks && s.tasks[t].InStart? && Current(s, t)
    ensures var s' := Run(true, inbox, es + [StartFinishes(t, granted, hardwareOk)] + [GateC(t)]);
      && (s'.holding <==> granted)
      && (granted ==> s'.slot == Run(true, inbox, es).slot)
      && (!granted ==> s'.slot.None? && (t in s'.sessionOf ==> Closes(s', s'.sessionOf[t]) == 1))
  {
    var es1 := es + [StartFinishes(t, granted, hardwareOk)];
    StartRecordsExactly(inbox, es, t, granted, hardwareOk);
    RunSnoc(true, inbox, es, StartFinishes(t, granted, hardwareOk));
    var s1 := Run(true, inbox, es1);
    RunTells(inbox, es1 + [GateC(t)]);
    RunSnoc(true, inbox, es1, GateC(t));
    DeniedGateC(s1, t);
    if !granted && t in s1.sessionOf {
      RunTells(inbox, es1);
      assert Places(Run(true, inbox, es1 + [GateC(t)]), s1.sessionOf[t]) == 1;
    }
  }

  lemma DeniedGateC(s: State, t: nat)
    requires t in s.tasks && s.tasks[t].BeforeGateC? && Current(s, t)
    ensures var s' := Step(true, s, GateC(t));
      && (s'.holding <==> !s.engine.permissionDenied) && s'.slot == (if s'.holding then s.slot else None)
      && s'.sessionOf == s.sessionOf && s'.openedBy == s.openedBy && s'.tasks == s.tasks[t := Done]
  {
    GateCEffect(s, t, s.tasks[t].live);
  }

  // ----- A hold from press to release -----

  /** The hold's open: a session, or note-only. */
  function Opens(k: nat, live: Option<SessionId>): Event {
    if live.Some? then OpenSucceeds(k, live.value) else OpenFails(k)
  }

  /** The hold with the next token, its microphone granted. */
  function Held(k: nat, live: Option<SessionId>): seq<Event> {
    [Press, GateA(k), Opens(k, live)] + [GateB(k, false), StartFinishes(k, true, true), GateC(k)]
  }

  /** The globe is under its cover and up, the engine idle, and the session to be opened new. */
  predicate Ready(s: State, live: Option<SessionId>) {
    s.cover && !s.pressed && s.engine.phase.Idle? && (live.Some? ==> s.inbox && live.value !in s.openedBy)
  }

  function WithOpened(s: State, k: nat, live: Option<SessionId>): State {
    var s' := s.(tasks := s.tasks[k := BeforeGateB(live)]);
    if live.None? then s' else s'.(openedBy := s.openedBy[live.value := k], sessionOf := s.sessionOf[k := live.value])
  }

  lemma RunTo(inbox: bool, es: seq<Event>, s: State, e: Event, s': State)
    requires s == Run(true, inbox, es) && Step(true, s, e) == s'
    ensures Run(true, inbox, es + [e]) == s'
  {
    RunSnoc(true, inbox, es, e);
  }

  lemma Presses(s: State)
    requires s.cover && !s.pressed
    ensures Step(true, s, Press) ==
      s.(pressed := true, holding := true, token := s.token + 1, tasks := s.tasks[s.token + 1 := Spawned])
  {
  }

  lemma TakesSession(s: State, k: nat, live: Option<SessionId>)
    requires k in s.tasks && s.tasks[k].Opening? && (live.Some? ==> s.inbox && live.value !in s.openedBy)
    ensures Step(true, s, Opens(k, live)) == WithOpened(s, k, live)
  {
  }

  lemma EntersRecording(s: State, k: nat, live: Option<SessionId>)
    requires Current(s, k) && k in s.tasks && s.tasks[k] == BeforeGateB(live) && s.engine.phase.Idle?
    ensures Step(true, s, GateB(k, false)) ==
      s.(slot := live, tasks := s.tasks[k := InStart(live)], engine := s.engine.(phase := Starting, owner := k))
  {
    assert s.tasks[k := BeforeStart(live)][k := InStart(live)] == s.tasks[k := InStart(live)];
  }

  lemma StartsRecording(s: State, k: nat, live: Option<SessionId>)
    requires k in s.tasks && s.tasks[k] == InStart(live) && s.engine.owner == k && !s.engine.abortRequested
    ensures Step(true, s, StartFinishes(k, true, true)) ==
      s.(tasks := s.tasks[k := BeforeGateC(live)], engine := Engine(Recording, k, false, false, live.Some?))
  {
  }

  lemma GoesOn(s: State, k: nat)
    requires Current(s, k) && k in s.tasks && s.tasks[k].BeforeGateC? && !s.engine.permissionDenied
    ensures Step(true, s, GateC(k)) == s.(tasks := s.tasks[k := Done])
  {
  }

  /** The hold has its session, if any, and is about to pass Gate B. */
  lemma RunOpening(inbox: bool, es: seq<Event>, s: State, live: Option<SessionId>) returns (s': State)
    requires s == Run(true, inbox, es) && Ready(s, live)
    ensures var k := s.token + 1;
      && Run(true, inbox, es + [Press] + [GateA(k)] + [Opens(k, live)]) == s'
      && s' == WithOpened(s.(pressed := true, holding := true, token := k), k, live)
  {
    var k := s.token + 1;
    var s1 := s.(pressed := true, holding := true, token := k, tasks := s.tasks[k := Spawned]);
    Presses(s);
    RunTo(inbox, es, s, Press, s1);
    var s2 := s1.(tasks := s1.tasks[k := Opening]);
    RunTo(inbox, es + [Press], s1, GateA(k), s2);
    TakesSession(s2, k, live);
    s' := WithOpened(s2, k, live);
    RunTo(inbox, es + [Press] + [GateA(k)], s2, Opens(k, live), s');
    assert s.tasks[k := Spawned][k := Opening][k := BeforeGateB(live)] == s.tasks[k := BeforeGateB(live)];
  }

  lemma RunRecording(inbox: bool, es: seq<Event>, s: State, k: nat, live: Option<SessionId>) returns (s': State)
    requires s == Run(true, inbox, es)
    requires Current(s, k) && k in s.tasks && s.tasks[k] == BeforeGateB(live) && s.engine.phase.Idle? && !s.engine.abortRequested
    ensures Run(true, inbox, es + [GateB(k, false)] + [StartFinishes(k, true, true)] + [GateC(k)]) == s'
    ensures s' == s.(slot := live, tasks := s.tasks[k := Done], engine := Engine(Recording, k, false, false, live.Some?))
  {
    var s1 := s.(slot := live, tasks := s.tasks[k := InStart(live)], engine := s.engine.(phase := Starting, owner := k));
    EntersRecording(s, k, live);
    RunTo(inbox, es, s, GateB(k, false), s1);
    var s2 := s1.(tasks := s1.tasks[k := BeforeGateC(live)], engine := Engine(Recording, k, false, false, live.Some?));
    StartsRecording(s1, k, live);
    RunTo(inbox, es + [GateB(k, false)], s1, StartFinishes(k, true, true), s2);
    GoesOn(s2, k);
    s' := s2.(tasks := s2.tasks[k := Done]);
    RunTo(inbox, es + [GateB(k, false)] + [StartFinishes(k, true, true)], s2, GateC(k), s');
    assert s.tasks[k := InStart(live)][k := BeforeGateC(live)][k := Done] == s.tasks[k := Done];
  }

  /**
   A hold nothing disturbs, from any reachable state with the engine idle: the microphone
   records for it, and the slot names its session.
   */
  lemma UndisturbedHoldRecords(inbox: bool, es: seq<Event>, s: State, live: Option<SessionId>) returns (held: State)
    requires s == Run(true, inbox, es) && Ready(s, live)
    ensures Run(true, inbox, es + Held(s.token + 1, live)) == held
    ensures var k := s.token + 1;
      && held.holding && held.token == k && held.slot == live && held.engine == Engine(Recording, k, false, false, live.Some?)
      && held.notes == s.notes && k in held.tasks && held.tasks[k].Done?
      && (k in held.sessionOf <==> live.Some?) && (live.Some? ==> held.sessionOf[k] == live.value)
  {
    var k := s.token + 1;
    RunTells(inbox, es);
    NoSessionYet(s, k);
    var s1 := RunOpening(inbox, es, s, live);
    var start := es + [Press] + [GateA(k)] + [Opens(k, live)];
    held := RunRecording(inbox, start, s1, k, live);
    assert start + [GateB(k, false)] + [StartFinishes(k, true, true)] + [GateC(k)] == es + Held(k, live);
  }

  /** A hold that has not begun has no session. */
  lemma NoSessionYet(s: State, k: nat)
    requires SessionInv(s) && k > s.token
    ensures k !in s.sessionOf
  {
  }

  /**
   The release of a recorded hold closes its session once, sends the note where it is due,
   and leaves the globe and the engine ready for the next hold.
   */
  lemma RecordedHoldReleased(inbox: bool, es: seq<Event>, s: State, n: nat, readable: bool) returns (s': State)
    requires s == Run(true, inbox, es)
    requires s.holding && s.engine.phase.Recording? && s.engine.owner == s.token && s.token in s.tasks && s.tasks[s.token].Done?
    ensures s' == Run(true, inbox, es + [Release(n, readable)])
    ensures !s'.holding && !s'.pressed && s'.slot.None? && s'.engine.phase.Idle?
    ensures s.token in s.sessionOf ==> Closes(s', s.sessionOf[s.token]) == 1
    ensures s'.notes == if inbox && readable && (s.token in s.sessionOf ==> n < 25) then s.notes + [s.token] else s.notes
  {
    s' := Run(true, inbox, es + [Release(n, readable)]);
    RunTells(inbox, es);
    RunSnoc(true, inbox, es, Release(n, readable));
    NoteSentExactly(inbox, es, Release(n, readable));
    HoldEndsExactly(inbox, es, Release(n, readable));
  }


  // ----- What other holds cannot do -----

  /** A task of another hold leaves the engine alone while a hold records. */
  lemma RecordingKeptByTask(s: State, e: Event)
    requires MicInv(s) && s.engine.phase.Recording? && Current(s, s.engine.owner) && !FromSurface(e)
    ensures Step(true, s, e).engine == s.engine
  {
    if e.GateC? && e.t in s.tasks && s.tasks[e.t].BeforeGateC? {
      GateCEffect(s, e.t, s.tasks[e.t].live);
    }
  }

  /** In any run: while a hold goes on its own recording goes on, whatever older tasks do. */
  lemma RecordingKept(inbox: bool, es: seq<Event>, e: Event)
    requires var s := Run(true, inbox, es); s.engine.phase.Recording? && Current(s, s.engine.owner)
    requires Run(true, inbox, es + [e]).holding
    ensures Run(true, inbox, es + [e]).engine == Run(true, inbox, es).engine
  {
    var s := Run(true, inbox, es);
    RunTells(inbox, es);
    RunSnoc(true, inbox, es, e);
    EndsStep(s, e);
    if !FromSurface(e) {
      RecordingKeptByTask(s, e);
    }
  }

  /** A task that finds its hold over at its entry is done and opens nothing; one that finds it current opens. */
  lemma EntryOpensExactly(s: State, t: nat)
    requires t in s.tasks && s.tasks[t].Spawned?
    ensures Step(true, s, GateA(t)) == s.(tasks := s.tasks[t := if s.holding && s.token == t then Opening else Done])
  {
  }

  /** The globe comes up ready with its cover, and again with every release. */
  lemma GlobeReady(s: State, n: nat, readable: bool)
    ensures !s.cover ==> Step(true, s, ShowCover) == s.(cover := true, pressed := false)
    ensures s.cover ==> !Step(true, s, Release(n, readable)).pressed && Step(true, s, Release(n, readable)).cover
    ensures s.cover ==> !Step(true, s, DismissCover).cover
  {
    TeardownEffect(s.(cover := false));
  }
}
