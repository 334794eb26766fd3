/**
 The push-to-talk hold protocol of Screens/Conversation1View.swift: any number of
 overlapping hold tasks on the main actor, one session slot, one capture engine.
 A run is an arbitrary sequence of events; an event that is not enabled changes
 nothing, so every sequence is a run.
 */
module PttHold {
  import opened Wrappers
  import opened CaptureEngine

  type SessionId = nat

  /** Where a hold's task is suspended. */
  datatype Stage =
    | Spawned
    | Opening
    | BeforeGateB(live: Option<SessionId>)
    | BeforeStart(live: Option<SessionId>)
    | InStart(live: Option<SessionId>)
    | BeforeGateC(live: Option<SessionId>)
    | Done

  /**
   `pressed` is the globe's own `holding` flag and `cover` is `showWalkie`.
   `openedBy` and `sessionOf` record which task opened which session, `closed` counts
   the closes sent for it, `notes` the holds whose recording was sent as a note.
   */
  datatype State = State(
    holding: bool, token: nat, slot: Option<SessionId>,
    pressed: bool, cover: bool, inbox: bool,
    engine: Engine, tasks: map<nat, Stage>,
    openedBy: map<SessionId, nat>, sessionOf: map<nat, SessionId>, closed: map<SessionId, nat>, notes: seq<nat>)

  /**
   `GateB.gap` says whether the task is suspended once more between its slot write
   and the entry of `start`; both orders are covered.
   */
  datatype Event =
    | ShowCover
    | DismissCover
    | PopScreen
    | Press
    | Release(sentFrames: nat, readable: bool)
    | GateA(t: nat)
    | OpenSucceeds(t: nat, sid: SessionId)
    | OpenFails(t: nat)
    | GateB(t: nat, gap: bool)
    | EntersStart(t: nat)
    | StartFinishes(t: nat, granted: bool, hardwareOk: bool)
    | GateC(t: nat)

  function Initial(inbox: bool): State {
    State(false, 0, None, false, false, inbox, POWER_ON, map[], map[], map[], map[], [])
  }

  predicate Current(s: State, t: nat) {
    s.holding && s.token == t
  }

  function Closes(s: State, sid: SessionId): nat {
    if sid in s.closed then s.closed[sid] else 0
  }

  function CloseLive(s: State, live: Option<SessionId>): (r: State)
    ensures r == s.(closed := r.closed)
  {
    if live.Some? && s.inbox then s.(closed := s.closed[live.value := Closes(s, live.value) + 1]) else s
  }

  function Finish(s: State, t: nat): State {
    s.(tasks := s.tasks[t := Done])
  }

  function Teardown(s: State): State {
    if !s.holding then s
    else
      var s1 := s.(holding := false, engine := Cancel(s.engine));
      if s.slot.Some? && s.inbox then CloseLive(s1.(slot := None), s.slot) else s1
  }

  function EndHold(s: State, sentFrames: nat, readable: bool): State {
    if !s.holding then s
    else
      var note := s.inbox && StopYieldsNote(s.engine, s.token, sentFrames, readable);
      CloseLive(
        s.(holding := false,
           engine := Stop(s.engine, s.token),
           slot := None,
           notes := if note then s.notes + [s.token] else s.notes),
        s.slot)
  }

  function BeginHold(s: State): State {
    s.(holding := true, token := s.token + 1, tasks := s.tasks[s.token + 1 := Spawned])
  }

  function EnterStartStep(s: State, t: nat, live: Option<SessionId>): State {
    s.(engine := EnterStart(s.engine, t),
       tasks := s.tasks[t := if s.engine.phase.Idle? then InStart(live) else BeforeGateC(live)])
  }

  function GateBStep(s: State, t: nat, live: Option<SessionId>, gap: bool): State {
    if !Current(s, t) then Finish(CloseLive(s, live), t)
    else
      var s1 := s.(slot := live, tasks := s.tasks[t := BeforeStart(live)]);
      if gap then s1 else EnterStartStep(s1, t, live)
  }

  /** Gate C and, in the token-valid region behind it, the permission-denial surface D. */
  function GateCStep(s: State, t: nat, live: Option<SessionId>): State {
    if !Current(s, t) then
      var s1 := Finish(s.(engine := Stop(s.engine, t)), t);
      if live.Some? && s.slot == live then CloseLive(s1.(slot := None), live) else s1
    else if s.engine.permissionDenied then
      Finish(CloseLive(s.(holding := false, slot := None), live), t)
    else
      Finish(s, t)
  }

  /** Gate C ends its task, stops the engine of a stale hold, and may give up a denied one. */
  lemma GateCEffect(s: State, t: nat, live: Option<SessionId>)
    ensures var s' := GateCStep(s, t, live);
      s' == s.(tasks := s.tasks[t := Done], slot := s'.slot, closed := s'.closed,
               engine := if Current(s, t) then s.engine else Stop(s.engine, t),
               holding := s.holding && !(Current(s, t) && s.engine.permissionDenied))
  {
    if !Current(s, t) {
      var s1 := Finish(s.(engine := Stop(s.engine, t)), t);
      assert GateCStep(s, t, live) == s1.(slot := GateCStep(s, t, live).slot, closed := GateCStep(s, t, live).closed);
    }
  }

  /** One atomic main-actor segment. `guarded` keeps the globe's press guard. */
  function Step(guarded: bool, s: State, e: Event): State {
    match e
    case ShowCover =>
      if s.cover then s else s.(cover := true, pressed := false)
    case DismissCover =>
      if s.cover then Teardown(s.(cover := false)) else s
    case PopScreen =>
      Teardown(s)
    case Press =>
      if !s.cover || (guarded && s.pressed) then s else BeginHold(s.(pressed := true))
    case Release(sentFrames, readable) =>
      if s.cover then EndHold(s.(pressed := false), sentFrames, readable) else s
    case GateA(t) =>
      if t in s.tasks && s.tasks[t].Spawned? then
        if Current(s, t) then s.(tasks := s.tasks[t := Opening]) else Finish(s, t)
      else s
    case OpenSucceeds(t, sid) =>
      if s.inbox && t in s.tasks && s.tasks[t].Opening? && sid !in s.openedBy then
        s.(tasks := s.tasks[t := BeforeGateB(Some(sid))], openedBy := s.openedBy[sid := t], sessionOf := s.sessionOf[t := sid])
      else s
    case OpenFails(t) =>
      if t in s.tasks && s.tasks[t].Opening? then
        s.(tasks := s.tasks[t := BeforeGateB(None)])
      else s
    case GateB(t, gap) =>
      if t in s.tasks && s.tasks[t].BeforeGateB? then GateBStep(s, t, s.tasks[t].live, gap) else s
    case EntersStart(t) =>
      if t in s.tasks && s.tasks[t].BeforeStart? then EnterStartStep(s, t, s.tasks[t].live) else s
    case StartFinishes(t, granted, hardwareOk) =>
      if t in s.tasks && s.tasks[t].InStart? then
        s.(engine := FinishStart(s.engine, s.tasks[t].live.Some?, granted, hardwareOk),
           tasks := s.tasks[t := BeforeGateC(s.tasks[t].live)])
      else s
    case GateC(t) =>
      if t in s.tasks && s.tasks[t].BeforeGateC? then GateCStep(s, t, s.tasks[t].live) else s
  }

  function Run(guarded: bool, inbox: bool, es: seq<Event>): State {
    if es == [] then Initial(inbox)
    else Step(guarded, Run(guarded, inbox, es[..|es| - 1]), es[|es| - 1])
  }

  // ----- What is promised -----

  /** Held by its own task between the open's return and Gate B. */
  predicate InFlight(s: State, sid: SessionId)
    requires sid in s.openedBy
  {
    s.openedBy[sid] in s.tasks && s.tasks[s.openedBy[sid]] == BeforeGateB(Some(sid))
  }

  function Places(s: State, sid: SessionId): nat
    requires sid in s.openedBy
  {
    (if InFlight(s, sid) then 1 else 0) + (if s.slot == Some(sid) then 1 else 0) + Closes(s, sid)
  }

  /** Every opened session is in exactly one place; nothing unopened is held or closed. */
  ghost predicate Conserved(s: State) {
    && (forall sid :: sid in s.openedBy ==> Places(s, sid) == 1)
    && (forall sid :: sid in s.closed ==> sid in s.openedBy)
  }

  /** The slot is the current hold's own. */
  ghost predicate SlotOwned(s: State) {
    s.slot.Some? ==> s.holding && s.slot.value in s.openedBy && s.openedBy[s.slot.value] == s.token
  }

  /** A recording belongs to the current hold, or its task has yet to run Gate C. */
  ghost predicate MicOwned(s: State) {
    s.engine.phase.Recording? ==>
      Current(s, s.engine.owner) || (s.engine.owner in s.tasks && s.tasks[s.engine.owner].BeforeGateC?)
  }

  // ----- The inductive invariant -----

  predicate PastGateB(stage: Stage) {
    stage.BeforeStart? || stage.InStart? || stage.BeforeGateC?
  }

  ghost predicate TasksOk(s: State) {
    && (forall t :: t in s.tasks ==> 1 <= t <= s.token)
    && (forall t :: t in s.tasks && (s.tasks[t].BeforeGateB? || PastGateB(s.tasks[t])) && s.tasks[t].live.Some? ==>
          s.tasks[t].live.value in s.openedBy && s.openedBy[s.tasks[t].live.value] == t)
    && (forall t :: t in s.tasks && PastGateB(s.tasks[t]) && Current(s, t) ==> s.slot == s.tasks[t].live)
  }

  ghost predicate OpenedOk(s: State) {
    && (forall sid :: sid in s.openedBy ==>
          1 <= s.openedBy[sid] <= s.token && s.openedBy[sid] in s.sessionOf && s.sessionOf[s.openedBy[sid]] == sid)
    && (forall t :: t in s.sessionOf ==> s.sessionOf[t] in s.openedBy && s.openedBy[s.sessionOf[t]] == t)
    && (forall t :: t in s.sessionOf && t in s.tasks ==>
          s.tasks[t].Done? || ((s.tasks[t].BeforeGateB? || PastGateB(s.tasks[t])) && s.tasks[t].live == Some(s.sessionOf[t])))
    && (s.openedBy != map[] ==> s.inbox)
  }

  ghost predicate EngineOk(s: State) {
    && (s.engine.phase.Starting? ==> s.engine.owner in s.tasks && s.tasks[s.engine.owner].InStart?)
    && (forall t :: t in s.tasks && s.tasks[t].InStart? ==> s.engine.phase.Starting? && s.engine.owner == t)
    && (s.engine.abortRequested ==> s.engine.phase.Starting?)
    && (s.engine.phase.Recording? ==> !s.engine.permissionDenied)
  }

  /** Each hold sends at most one note, and only once it is over. */
  ghost predicate NotesOk(s: State) {
    && (forall i :: 0 <= i < |s.notes| ==> s.notes[i] <= s.token && (s.holding ==> s.notes[i] < s.token))
    && (forall i, j :: 0 <= i < j < |s.notes| ==> s.notes[i] < s.notes[j])
  }

  ghost predicate SessionInv(s: State) {
    && (s.holding ==> s.pressed && s.cover)
    && TasksOk(s) && OpenedOk(s) && Conserved(s) && SlotOwned(s)
  }

  /** All of `SessionInv` but the conservation law itself. */
  ghost predicate Bookkept(s: State) {
    (s.holding ==> s.pressed && s.cover) && TasksOk(s) && OpenedOk(s) && SlotOwned(s)
  }

  ghost predicate MicInv(s: State) {
    && (s.holding ==> s.pressed && s.cover)
    && (forall t :: t in s.tasks ==> 1 <= t <= s.token)
    && EngineOk(s) && MicOwned(s) && NotesOk(s)
  }

  // ----- Sessions -----

  lemma PressBooks(s: State)
    requires Bookkept(s) && !s.pressed && s.cover
    ensures Bookkept(BeginHold(s.(pressed := true)))
  {
  }

  lemma PressKeeps(s: State)
    requires SessionInv(s) && !s.pressed && s.cover
    ensures SessionInv(BeginHold(s.(pressed := true)))
  {
    PressBooks(s);
    var s' := BeginHold(s.(pressed := true));
    forall sid | sid in s'.openedBy
      ensures Places(s', sid) == Places(s, sid)
    {
    }
  }

  /** Both release and teardown give the slot back and close it, whatever the engine does. */
  ghost predicate DropsHold(s: State, s': State) {
    && s.holding
    && s' == CloseLive(s.(holding := false, slot := None, pressed := s'.pressed, cover := s'.cover,
                          engine := s'.engine, notes := s'.notes), s.slot)
  }

  lemma DropHoldBooks(s: State, s': State)
    requires Bookkept(s) && DropsHold(s, s')
    ensures Bookkept(s')
  {
  }

  lemma DropHoldConserves(s: State, s': State)
    requires SessionInv(s) && DropsHold(s, s')
    ensures Conserved(s')
  {
  }

  lemma DropHoldKeeps(s: State, s': State)
    requires SessionInv(s) && DropsHold(s, s')
    ensures SessionInv(s')
  {
    DropHoldBooks(s, s');
    DropHoldConserves(s, s');
  }

  lemma FinishKeeps(s: State, t: nat)
    requires SessionInv(s) && t in s.tasks
    requires s.tasks[t].BeforeGateB? ==> s.tasks[t].live.None?
    ensures SessionInv(Finish(s, t))
  {
  }

  lemma GateAKeeps(s: State, t: nat)
    requires SessionInv(s) && t in s.tasks && s.tasks[t].Spawned?
    ensures SessionInv(s.(tasks := s.tasks[t := Opening]))
  {
  }

  lemma OpenSucceedsKeeps(s: State, t: nat, sid: SessionId)
    requires SessionInv(s) && s.inbox && t in s.tasks && s.tasks[t].Opening? && sid !in s.openedBy
    ensures SessionInv(s.(tasks := s.tasks[t := BeforeGateB(Some(sid))],
                          openedBy := s.openedBy[sid := t], sessionOf := s.sessionOf[t := sid]))
  {
  }

  lemma OpenFailsKeeps(s: State, t: nat)
    requires SessionInv(s) && t in s.tasks && s.tasks[t].Opening?
    ensures SessionInv(s.(tasks := s.tasks[t := BeforeGateB(None)]))
  {
  }

  lemma GateBStaleBooks(s: State, t: nat, sid: SessionId)
    requires Bookkept(s) && t in s.tasks && s.tasks[t] == BeforeGateB(Some(sid)) && !Current(s, t)
    ensures Bookkept(Finish(CloseLive(s, Some(sid)), t))
  {
  }

  lemma GateBStaleConserves(s: State, t: nat, sid: SessionId)
    requires SessionInv(s) && t in s.tasks && s.tasks[t] == BeforeGateB(Some(sid)) && !Current(s, t)
    ensures Conserved(Finish(CloseLive(s, Some(sid)), t))
  {
    var s' := Finish(CloseLive(s, Some(sid)), t);
    assert Places(s, sid) == 1;
    forall q | q in s'.openedBy
      ensures Places(s', q) == 1
    {
      assert Places(s, q) == 1;
    }
  }

  lemma GateBStaleKeeps(s: State, t: nat, sid: SessionId)
    requires SessionInv(s) && t in s.tasks && s.tasks[t] == BeforeGateB(Some(sid)) && !Current(s, t)
    ensures SessionInv(Finish(CloseLive(s, Some(sid)), t))
  {
    GateBStaleBooks(s, t, sid);
    GateBStaleConserves(s, t, sid);
  }

  lemma GateBWriteKeeps(s: State, t: nat)
    requires SessionInv(s) && t in s.tasks && s.tasks[t].BeforeGateB? && Current(s, t)
    ensures SessionInv(s.(slot := s.tasks[t].live, tasks := s.tasks[t := BeforeStart(s.tasks[t].live)]))
  {
  }

  ghost predicate MovesPastGateB(s: State, s': State, t: nat) {
    && t in s.tasks && PastGateB(s.tasks[t])
    && t in s'.tasks && PastGateB(s'.tasks[t]) && s'.tasks[t].live == s.tasks[t].live
    && s' == s.(engine := s'.engine, tasks := s.tasks[t := s'.tasks[t]])
  }

  lemma MoveBooks(s: State, s': State, t: nat)
    requires Bookkept(s) && MovesPastGateB(s, s', t)
    ensures Bookkept(s')
  {
  }

  lemma MoveConserves(s: State, s': State, t: nat)
    requires Conserved(s) && MovesPastGateB(s, s', t)
    ensures Conserved(s')
  {
    forall q | q in s'.openedBy
      ensures Places(s', q) == 1
    {
      assert Places(s, q) == 1;
    }
  }

  lemma MovePastGateBKeeps(s: State, s': State, t: nat)
    requires SessionInv(s) && MovesPastGateB(s, s', t)
    ensures SessionInv(s')
  {
    MoveBooks(s, s', t);
    MoveConserves(s, s', t);
  }

  /** The slot can only name a stale task's session if that task is not stale. */
  lemma StaleNeverOwnsSlot(s: State, t: nat)
    requires SessionInv(s) && t in s.tasks && PastGateB(s.tasks[t]) && !Current(s, t)
    ensures s.tasks[t].live.Some? ==> s.slot != s.tasks[t].live
  {
  }

  lemma GateCKeeps(s: State, t: nat)
    requires SessionInv(s) && t in s.tasks && s.tasks[t].BeforeGateC?
    ensures SessionInv(GateCStep(s, t, s.tasks[t].live))
  {
    var live := s.tasks[t].live;
    if !Current(s, t) {
      StaleNeverOwnsSlot(s, t);
      assert s.tasks[t := s.tasks[t]] == s.tasks;
      MovePastGateBKeeps(s, s.(engine := Stop(s.engine, t)), t);
      FinishKeeps(s.(engine := Stop(s.engine, t)), t);
    } else if s.engine.permissionDenied {
      DropHoldKeeps(s, CloseLive(s.(holding := false, slot := None), live));
      FinishKeeps(CloseLive(s.(holding := false, slot := None), live), t);
    } else {
      FinishKeeps(s, t);
    }
  }

  lemma GateBKeeps(s: State, t: nat, gap: bool)
    requires SessionInv(s) && t in s.tasks && s.tasks[t].BeforeGateB?
    ensures SessionInv(GateBStep(s, t, s.tasks[t].live, gap))
  {
    var live := s.tasks[t].live;
    if Current(s, t) {
      GateBWriteKeeps(s, t);
      var s1 := s.(slot := live, tasks := s.tasks[t := BeforeStart(live)]);
      EnterStartKeeps(s1, t);
    } else if live.Some? {
      GateBStaleKeeps(s, t, live.value);
    } else {
      FinishKeeps(s, t);
    }
  }

  lemma EnterStartKeeps(s: State, t: nat)
    requires SessionInv(s) && t in s.tasks && s.tasks[t].BeforeStart?
    ensures SessionInv(EnterStartStep(s, t, s.tasks[t].live))
  {
    MovePastGateBKeeps(s, EnterStartStep(s, t, s.tasks[t].live), t);
  }

  predicate FromSurface(e: Event) {
    e.ShowCover? || e.DismissCover? || e.PopScreen? || e.Press? || e.Release?
  }

  lemma SessionKeptByTeardown(s: State, cover: bool)
    requires SessionInv(s)
    ensures SessionInv(Teardown(s.(cover := cover)))
  {
    if s.holding {
      DropHoldKeeps(s, Teardown(s.(cover := cover)));
    }
  }

  lemma SessionKeptByRelease(s: State, sentFrames: nat, readable: bool)
    requires SessionInv(s)
    ensures SessionInv(EndHold(s.(pressed := false), sentFrames, readable))
  {
    if s.holding {
      DropHoldKeeps(s, EndHold(s.(pressed := false), sentFrames, readable));
    }
  }

  lemma SessionKeptBySurface(s: State, e: Event)
    requires SessionInv(s) && FromSurface(e)
    ensures SessionInv(Step(true, s, e))
  {
    match e
    case ShowCover =>
    case DismissCover =>
      SessionKeptByTeardown(s, false);
    case PopScreen =>
      SessionKeptByTeardown(s, s.cover);
    case Press =>
      if s.cover && !s.pressed {
        PressKeeps(s);
      }
    case Release(sentFrames, readable) =>
      SessionKeptByRelease(s, sentFrames, readable);
  }

  lemma SessionKeptByOpening(s: State, e: Event)
    requires SessionInv(s) && !FromSurface(e) && e.t in s.tasks
    requires s.tasks[e.t].Spawned? || s.tasks[e.t].Opening?
    ensures SessionInv(Step(true, s, e))
  {
    if s.tasks[e.t].Spawned? {
      GateAKeeps(s, e.t);
      FinishKeeps(s, e.t);
    } else {
      OpenFailsKeeps(s, e.t);
      if e.OpenSucceeds? && s.inbox && e.sid !in s.openedBy {
        OpenSucceedsKeeps(s, e.t, e.sid);
      }
    }
  }

  lemma SessionKeptByTask(s: State, e: Event)
    requires SessionInv(s) && !FromSurface(e) && e.t in s.tasks
    ensures SessionInv(Step(true, s, e))
  {
    match s.tasks[e.t]
    case Spawned =>
      SessionKeptByOpening(s, e);
    case Opening =>
      SessionKeptByOpening(s, e);
    case BeforeGateB(_) =>
      if e.GateB? {
        GateBKeeps(s, e.t, e.gap);
      }
    case BeforeStart(_) =>
      EnterStartKeeps(s, e.t);
    case InStart(_) =>
      if e.StartFinishes? {
        MovePastGateBKeeps(s, Step(true, s, e), e.t);
      }
    case BeforeGateC(_) =>
      GateCKeeps(s, e.t);
    case Done =>
  }

  // ----- Microphone and notes -----

  lemma MicKeptByPress(s: State)
    requires MicInv(s) && !s.pressed && s.cover
    ensures MicInv(BeginHold(s.(pressed := true)))
  {
  }

  /** A hold ends by an owned stop or by an unowned cancel. */
  lemma MicKeptByDrop(s: State, s': State)
    requires MicInv(s) && s.holding && !s'.holding
    requires s'.token == s.token && s'.tasks == s.tasks
    requires s'.engine == Cancel(s.engine) || s'.engine == Stop(s.engine, s.token)
    requires s'.notes == s.notes || s'.notes == s.notes + [s.token]
    ensures MicInv(s')
  {
  }

  lemma MicKeptByMove(s: State, s': State, t: nat, stage: Stage)
    requires MicInv(s) && t in s.tasks && !s.tasks[t].InStart? && !s.tasks[t].BeforeGateC? && !stage.InStart?
    requires s' == s.(tasks := s.tasks[t := stage], slot := s'.slot, closed := s'.closed,
                      openedBy := s'.openedBy, sessionOf := s'.sessionOf)
    ensures MicInv(s')
  {
  }

  lemma MicKeptByStart(s: State, s': State, t: nat, live: Option<SessionId>)
    requires MicInv(s) && t in s.tasks && (s.tasks[t].BeforeStart? || s.tasks[t].BeforeGateB?)
    requires s' == EnterStartStep(s, t, live)
    ensures MicInv(s')
  {
  }

  lemma MicKeptByFinish(s: State, t: nat, live: Option<SessionId>, granted: bool, hardwareOk: bool)
    requires MicInv(s) && t in s.tasks && s.tasks[t].InStart?
    ensures MicInv(s.(engine := FinishStart(s.engine, live.Some?, granted, hardwareOk), tasks := s.tasks[t := BeforeGateC(live)]))
  {
  }

  lemma MicKeptByGateC(s: State, t: nat)
    requires MicInv(s) && t in s.tasks && s.tasks[t].BeforeGateC?
    ensures MicInv(GateCStep(s, t, s.tasks[t].live))
  {
    GateCEffect(s, t, s.tasks[t].live);
  }

  lemma MicKeptByRelease(s: State, sentFrames: nat, readable: bool)
    requires MicInv(s)
    ensures MicInv(Step(true, s, Release(sentFrames, readable)))
  {
    if s.cover && s.holding {
      MicKeptByDrop(s, EndHold(s.(pressed := false), sentFrames, readable));
    }
  }

  lemma MicKeptByTeardown(s: State, cover: bool)
    requires MicInv(s)
    ensures MicInv(Teardown(s.(cover := cover)))
  {
    if s.holding {
      MicKeptByDrop(s, Teardown(s.(cover := cover)));
    }
  }

  lemma MicKeptBySurface(s: State, e: Event)
    requires MicInv(s) && FromSurface(e)
    ensures MicInv(Step(true, s, e))
  {
    match e
    case ShowCover =>
    case DismissCover =>
      MicKeptByTeardown(s, false);
    case PopScreen =>
      MicKeptByTeardown(s, s.cover);
    case Press =>
      if s.cover && !s.pressed {
        MicKeptByPress(s);
      }
    case Release(sentFrames, readable) =>
      MicKeptByRelease(s, sentFrames, readable);
  }

  lemma MicKeptByGateB(s: State, t: nat, gap: bool)
    requires MicInv(s) && t in s.tasks && s.tasks[t].BeforeGateB?
    ensures MicInv(GateBStep(s, t, s.tasks[t].live, gap))
  {
    var live := s.tasks[t].live;
    if Current(s, t) {
      var s1 := s.(slot := live, tasks := s.tasks[t := BeforeStart(live)]);
      MicKeptByMove(s, s1, t, BeforeStart(live));
      MicKeptByStart(s1, EnterStartStep(s1, t, live), t, live);
    } else {
      MicKeptByMove(s, GateBStep(s, t, live, gap), t, Done);
    }
  }

  lemma MicKeptByOpening(s: State, e: Event)
    requires MicInv(s) && !FromSurface(e) && e.t in s.tasks && (s.tasks[e.t].Spawned? || s.tasks[e.t].Opening?)
    ensures MicInv(Step(true, s, e))
  {
    match e
    case GateA(t) =>
      MicKeptByMove(s, s.(tasks := s.tasks[t := Opening]), t, Opening);
      MicKeptByMove(s, Finish(s, t), t, Done);
    case OpenSucceeds(t, sid) =>
      MicKeptByMove(s, s.(tasks := s.tasks[t := BeforeGateB(Some(sid))], openedBy := s.openedBy[sid := t],
                          sessionOf := s.sessionOf[t := sid]), t, BeforeGateB(Some(sid)));
    case OpenFails(t) =>
      MicKeptByMove(s, s.(tasks := s.tasks[t := BeforeGateB(None)]), t, BeforeGateB(None));
    case _ =>
  }

  lemma MicKeptByTask(s: State, e: Event)
    requires MicInv(s) && !FromSurface(e) && e.t in s.tasks
    ensures MicInv(Step(true, s, e))
  {
    match s.tasks[e.t]
    case Spawned =>
      MicKeptByOpening(s, e);
    case Opening =>
      MicKeptByOpening(s, e);
    case BeforeGateB(_) =>
      if e.GateB? {
        MicKeptByGateB(s, e.t, e.gap);
      }
    case BeforeStart(live) =>
      MicKeptByStart(s, EnterStartStep(s, e.t, live), e.t, live);
    case InStart(live) =>
      if e.StartFinishes? {
        MicKeptByFinish(s, e.t, live, e.granted, e.hardwareOk);
      }
    case BeforeGateC(_) =>
      MicKeptByGateC(s, e.t);
    case Done =>
  }

  lemma {:induction false} RunKeeps(inbox: bool, es: seq<Event>)
    ensures SessionInv(Run(true, inbox, es)) && MicInv(Run(true, inbox, es))
  {
    if es != [] {
      var s, e := Run(true, inbox, es[..|es| - 1]), es[|es| - 1];
      RunKeeps(inbox, es[..|es| - 1]);
      if FromSurface(e) {
        SessionKeptBySurface(s, e);
        MicKeptBySurface(s, e);
      } else if e.t in s.tasks {
        SessionKeptByTask(s, e);
        MicKeptByTask(s, e);
      }
    }
  }

  // ----- Theorems over every run -----

  /** Every session the open call opened is in exactly one place, in every interleaving. */
  lemma SessionsConserved(inbox: bool, es: seq<Event>)
    ensures Conserved(Run(true, inbox, es))
  {
    RunKeeps(inbox, es);
  }

  /** With no hold and no task short of Gate B, each session was closed exactly once. */
  lemma QuiescentSessionsClosed(inbox: bool, es: seq<Event>)
    requires var s := Run(true, inbox, es);
      !s.holding && forall t :: t in s.tasks ==> !s.tasks[t].BeforeGateB?
    ensures var s := Run(true, inbox, es);
      s.slot.None? && forall sid :: sid in s.openedBy ==> Closes(s, sid) == 1
  {
    RunKeeps(inbox, es);
    var s := Run(true, inbox, es);
    forall sid | sid in s.openedBy
      ensures Closes(s, sid) == 1
    {
      assert Places(s, sid) == 1;
    }
  }

  lemma SlotBelongsToCurrentHold(inbox: bool, es: seq<Event>)
    ensures SlotOwned(Run(true, inbox, es))
  {
    RunKeeps(inbox, es);
  }

  lemma StaleGateCLeavesSlot(s: State, t: nat)
    requires SessionInv(s) && t in s.tasks && s.tasks[t].BeforeGateC? && !Current(s, t)
    ensures GateCStep(s, t, s.tasks[t].live).slot == s.slot
  {
    StaleNeverOwnsSlot(s, t);
  }

  lemma StaleGateBLeavesSlot(s: State, t: nat, gap: bool)
    requires t in s.tasks && s.tasks[t].BeforeGateB? && !Current(s, t)
    ensures GateBStep(s, t, s.tasks[t].live, gap).slot == s.slot
  {
  }

  lemma StaleStepLeavesSlot(s: State, e: Event)
    requires SessionInv(s) && !FromSurface(e) && !Current(s, e.t)
    ensures Step(true, s, e).slot == s.slot
  {
    if e.t in s.tasks {
      if e.GateC? && s.tasks[e.t].BeforeGateC? {
        StaleGateCLeavesSlot(s, e.t);
      } else if e.GateB? && s.tasks[e.t].BeforeGateB? {
        StaleGateBLeavesSlot(s, e.t, e.gap);
      }
    }
  }

  /** No task of a superseded or released hold ever writes or clears the slot. */
  lemma StaleTasksLeaveSlotAlone(inbox: bool, es: seq<Event>, e: Event)
    requires !FromSurface(e) && !Current(Run(true, inbox, es), e.t)
    ensures Run(true, inbox, es + [e]).slot == Run(true, inbox, es).slot
  {
    RunKeeps(inbox, es);
    RunSnoc(true, inbox, es, e);
    StaleStepLeavesSlot(Run(true, inbox, es), e);
  }

  /** Gate C's own compare-and-close branch is dead code. */
  lemma GateCNeverCloses(inbox: bool, es: seq<Event>, t: nat)
    requires var s := Run(true, inbox, es);
      t in s.tasks && s.tasks[t].BeforeGateC? && !Current(s, t)
    ensures Run(true, inbox, es + [GateC(t)]).closed == Run(true, inbox, es).closed
  {
    RunKeeps(inbox, es);
    assert (es + [GateC(t)])[..|es|] == es;
    StaleNeverOwnsSlot(Run(true, inbox, es), t);
  }

  /** The microphone runs for the current hold or for one whose task still has Gate C to run. */
  lemma MicrophoneOwned(inbox: bool, es: seq<Event>)
    ensures MicOwned(Run(true, inbox, es))
  {
    RunKeeps(inbox, es);
  }

  lemma MicrophoneOffWhenDrained(inbox: bool, es: seq<Event>)
    requires var s := Run(true, inbox, es);
      !s.holding && forall t :: t in s.tasks ==> s.tasks[t].Done?
    ensures Run(true, inbox, es).engine.phase.Idle?
  {
    RunKeeps(inbox, es);
  }

  lemma OneNotePerHold(inbox: bool, es: seq<Event>)
    ensures NotesOk(Run(true, inbox, es))
  {
    RunKeeps(inbox, es);
  }

  // ----- No suspension between the slot write and the entry of start -----

  ghost predicate NoGap(es: seq<Event>) {
    forall i :: 0 <= i < |es| && es[i].GateB? ==> !es[i].gap
  }

  ghost predicate StrictMic(s: State) {
    && (forall t :: t in s.tasks ==> !s.tasks[t].BeforeStart?)
    && (s.engine.phase.Starting? ==> s.engine.abortRequested || Current(s, s.engine.owner))
    && (s.engine.phase.Recording? ==> Current(s, s.engine.owner))
  }

  lemma StrictMicKeptByTeardown(s: State, cover: bool)
    requires MicInv(s) && StrictMic(s)
    ensures StrictMic(Teardown(s.(cover := cover)))
  {
  }

  lemma StrictMicKeptByRelease(s: State, sentFrames: nat, readable: bool)
    requires MicInv(s) && StrictMic(s)
    ensures StrictMic(EndHold(s.(pressed := false), sentFrames, readable))
  {
  }

  lemma StrictMicKeptBySurface(s: State, e: Event)
    requires MicInv(s) && StrictMic(s) && FromSurface(e)
    ensures StrictMic(Step(true, s, e))
  {
    match e
    case ShowCover =>
    case DismissCover =>
      StrictMicKeptByTeardown(s, false);
    case PopScreen =>
      StrictMicKeptByTeardown(s, s.cover);
    case Press =>
    case Release(sentFrames, readable) =>
      StrictMicKeptByRelease(s, sentFrames, readable);
  }

  lemma StrictMicKeptByGateC(s: State, t: nat)
    requires MicInv(s) && StrictMic(s) && t in s.tasks && s.tasks[t].BeforeGateC?
    ensures StrictMic(GateCStep(s, t, s.tasks[t].live))
  {
    GateCEffect(s, t, s.tasks[t].live);
  }

  lemma StrictMicKeptByGateB(s: State, t: nat)
    requires MicInv(s) && StrictMic(s) && t in s.tasks && s.tasks[t].BeforeGateB?
    ensures StrictMic(GateBStep(s, t, s.tasks[t].live, false))
  {
  }

  lemma StrictMicKeptByTask(s: State, e: Event)
    requires MicInv(s) && StrictMic(s) && !FromSurface(e) && e.t in s.tasks && (e.GateB? ==> !e.gap)
    ensures StrictMic(Step(true, s, e))
  {
    if e.GateC? && s.tasks[e.t].BeforeGateC? {
      StrictMicKeptByGateC(s, e.t);
    } else if e.GateB? && s.tasks[e.t].BeforeGateB? {
      StrictMicKeptByGateB(s, e.t);
    }
  }

  /**
   When `start` is entered in the segment that passed Gate B, as a call on the same
   actor is, the microphone is on only while its own hold is held.
   */
  lemma {:induction false} MicrophoneOnOnlyWhileHeld(inbox: bool, es: seq<Event>)
    requires NoGap(es)
    ensures StrictMic(Run(true, inbox, es))
  {
    if es != [] {
      MicrophoneOnOnlyWhileHeld(inbox, es[..|es| - 1]);
      RunKeeps(inbox, es[..|es| - 1]);
      var s, e := Run(true, inbox, es[..|es| - 1]), es[|es| - 1];
      if FromSurface(e) {
        StrictMicKeptBySurface(s, e);
      } else if e.t in s.tasks {
        StrictMicKeptByTask(s, e);
      }
    }
  }

  // ----- What each guard is for -----

  lemma RunSnoc(guarded: bool, inbox: bool, es: seq<Event>, e: Event)
    ensures Run(guarded, inbox, es + [e]) == Step(guarded, Run(guarded, inbox, es), e)
  {
    assert (es + [e])[..|es|] == es;
  }

  lemma Extend(guarded: bool, inbox: bool, es: seq<Event>, s: State, e: Event) returns (es': seq<Event>, s': State)
    requires s == Run(guarded, inbox, es)
    ensures es' == es + [e] && s' == Step(guarded, s, e) && s' == Run(guarded, inbox, es')
  {
    RunSnoc(guarded, inbox, es, e);
    es', s' := es + [e], Step(guarded, s, e);
  }

  lemma FirstHoldArmed() returns (es: seq<Event>, s: State)
    ensures s == Run(false, true, es)
    ensures s == State(true, 1, Some(7), true, true, true, POWER_ON, map[1 := BeforeStart(Some(7))],
                       map[7 := 1], map[1 := 7], map[], [])
  {
    es, s := [], Initial(true);
    es, s := Extend(false, true, es, s, ShowCover);
    es, s := Extend(false, true, es, s, Press);
    es, s := Extend(false, true, es, s, GateA(1));
    es, s := Extend(false, true, es, s, OpenSucceeds(1, 7));
    es, s := Extend(false, true, es, s, GateB(1, true));
  }

  lemma SecondHoldPressed() returns (es: seq<Event>, s: State)
    ensures s == Run(false, true, es)
    ensures s == State(true, 2, Some(7), true, true, true, POWER_ON,
                       map[1 := BeforeStart(Some(7)), 2 := Opening], map[7 := 1], map[1 := 7], map[], [])
  {
    es, s := FirstHoldArmed();
    es, s := Extend(false, true, es, s, Press);
    es, s := Extend(false, true, es, s, GateA(2));
  }

  lemma SecondHoldArmed() returns (es: seq<Event>, s: State)
    ensures s == Run(false, true, es)
    ensures s == State(true, 2, None, true, true, true, POWER_ON,
                       map[1 := BeforeStart(Some(7)), 2 := BeforeStart(None)], map[7 := 1], map[1 := 7], map[], [])
  {
    es, s := SecondHoldPressed();
    es, s := Extend(false, true, es, s, OpenFails(2));
    es, s := Extend(false, true, es, s, GateB(2, true));
  }

  /**
   Without the globe's press guard a second press during a hold overwrites the slot:
   session 7 was opened, both holds are over, no slot names it, and it was not closed.
   */
  lemma UnguardedPressLosesSession() returns (es: seq<Event>)
    ensures var s := Run(false, true, es);
      && !s.holding && s.slot.None? && (forall t :: t in s.tasks ==> PastGateB(s.tasks[t]))
      && 7 in s.openedBy && Closes(s, 7) == 0
  {
    var s;
    es, s := SecondHoldArmed();
    es, s := Extend(false, true, es, s, Release(0, true));
  }

  lemma ReleasedInTheGap() returns (es: seq<Event>, s: State)
    ensures s == Run(true, true, es)
    ensures s == Initial(true).(token := 1, cover := true, tasks := map[1 := BeforeStart(None)])
  {
    es, s := [], Initial(true);
    es, s := Extend(true, true, es, s, ShowCover);
    es, s := Extend(true, true, es, s, Press);
    es, s := Extend(true, true, es, s, GateA(1));
    es, s := Extend(true, true, es, s, OpenFails(1));
    es, s := Extend(true, true, es, s, GateB(1, true));
    es, s := Extend(true, true, es, s, Release(0, true));
  }

  /**
   A suspension between Gate B and `start` lets a release slip in first: the microphone
   then comes on with no hold, and Gate C is what turns it off again.
   */
  lemma GapTurnsMicOnAfterRelease() returns (es: seq<Event>)
    ensures var s := Run(true, true, es);
      s.engine.phase.Recording? && !s.holding
    ensures Run(true, true, es + [GateC(1)]).engine.phase.Idle?
  {
    var s;
    es, s := ReleasedInTheGap();
    es, s := Extend(true, true, es, s, EntersStart(1));
    es, s := Extend(true, true, es, s, StartFinishes(1, true, true));
    RunSnoc(true, true, es, GateC(1));
  }
}
