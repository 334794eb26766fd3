/**
 The push-to-talk capture engine (Core/Media/PTTCaptureEngine.swift) as an owned
 state machine. Audio hardware, the microphone prompt and the temporary file are
 outcomes supplied by the caller; everything the engine decides is here.
 */
module CaptureEngine {

  datatype Phase = Idle | Starting | Recording

  /** The engine's decision-bearing fields. `owner` is the hold token that started it. */
  datatype Engine = Engine(phase: Phase, owner: nat, abortRequested: bool, permissionDenied: bool, liveHold: bool)

  const POWER_ON := Engine(Idle, 0, false, false, false)

  /** 25 frames of 20 ms: below this a live hold still leaves its fallback note. */
  const NOTE_SUPPRESSION_MIN_FRAMES := 25

  predicate ShouldSuppressNote(liveHold: bool, sentFrames: nat) {
    liveHold && sentFrames >= NOTE_SUPPRESSION_MIN_FRAMES
  }

  /** `start` up to its only suspension: a busy engine refuses, an idle one takes the owner. */
  function EnterStart(e: Engine, token: nat): Engine {
    if e.phase.Idle? then e.(phase := Starting, owner := token) else e
  }

  /** `start` after the permission answer, through both abort checkpoints. */
  function FinishStart(e: Engine, live: bool, granted: bool, hardwareOk: bool): Engine {
    if !granted then
      e.(permissionDenied := true, abortRequested := false, phase := Idle)
    else if e.abortRequested then
      e.(permissionDenied := false, abortRequested := false, phase := Idle)
    else if !hardwareOk then
      e.(permissionDenied := false, phase := Idle, liveHold := false)
    else
      e.(permissionDenied := false, phase := Recording, liveHold := live)
  }

  function Cancel(e: Engine): Engine {
    match e.phase
    case Idle => e
    case Starting => e.(abortRequested := true)
    case Recording => e.(phase := Idle, liveHold := false)
  }

  /** Only the owner may stop; everyone else is ignored. */
  function Stop(e: Engine, token: nat): Engine {
    if token == e.owner then Cancel(e) else e
  }

  /** Whether `stop(token)` hands back a note. */
  predicate StopYieldsNote(e: Engine, token: nat, sentFrames: nat, readable: bool) {
    token == e.owner && e.phase.Recording? && !ShouldSuppressNote(e.liveHold, sentFrames) && readable
  }

  class PttCaptureEngine {
    var phase: Phase
    var currentHoldToken: nat
    var abortRequested: bool
    var permissionDenied: bool
    var liveHold: bool

    ghost function View(): Engine
      reads this
    {
      Engine(phase, currentHoldToken, abortRequested, permissionDenied, liveHold)
    }

    constructor ()
      ensures View() == POWER_ON
    {
      phase, currentHoldToken := Idle, 0;
      abortRequested, permissionDenied, liveHold := false, false, false;
    }

    /** Returns whether the call suspended on the permission prompt. */
    method BeginStart(token: nat) returns (suspended: bool)
      modifies this
      ensures View() == EnterStart(old(View()), token)
      ensures suspended == old(phase.Idle?)
    {
      if !phase.Idle? {
        return false;
      }
      phase := Starting;
      currentHoldToken := token;
      return true;
    }

    method ResumeStart(live: bool, granted: bool, hardwareOk: bool)
      modifies this
      ensures View() == FinishStart(old(View()), live, granted, hardwareOk)
    {
      if !granted {
        permissionDenied := true;
        abortRequested := false;
        phase := Idle;
        return;
      }
      permissionDenied := false;
      if abortRequested {
        abortRequested := false;
        phase := Idle;
        return;
      }
      if hardwareOk {
        liveHold := live;
        phase := Recording;
      } else {
        liveHold := false;
        phase := Idle;
      }
    }

    method StopOwned(token: nat, sentFrames: nat, readable: bool) returns (note: bool)
      modifies this
      ensures View() == Stop(old(View()), token)
      ensures note == StopYieldsNote(old(View()), token, sentFrames, readable)
    {
      if token != currentHoldToken {
        return false;
      }
      match phase
      case Idle =>
        note := false;
      case Starting =>
        abortRequested := true;
        note := false;
      case Recording =>
        phase := Idle;
        note := !ShouldSuppressNote(liveHold, sentFrames) && readable;
        liveHold := false;
    }

    method CancelUnowned()
      modifies this
      ensures View() == Cancel(old(View()))
    {
      match phase
      case Idle =>
      case Starting =>
        abortRequested := true;
      case Recording =>
        phase := Idle;
        liveHold := false;
    }
  }
}
