/**
 Boot, onboarding and erase (Beacon/ContentView.swift) over a world of Keychain items
 and files. Every step may fail, the app may be killed between any two steps, and the
 rendered arm may lag behind `phase`. An event that is not enabled changes nothing.
 */
module BootMachine {
  import opened Wrappers
  import opened BootRouter

  type Identity = nat
  type Route = BootRoute<Identity, ()>

  /**
   What survives a kill. `contactStores` stands for the four sealed contact files and
   their own Keychain keys: allowlist, pending invites, blocked contacts, event ledger.
   */
  datatype World = World(
    identity: Option<Identity>, enclaveKey: bool, storeFiles: bool,
    sessionKey: bool, nostrSecret: bool, contactStores: bool, eulaAccepted: bool)

  datatype Phase =
    | Launching
    | Eula(route: Route)
    | Onboarding
    | BootFailed(failure: BootFailure)
    | Ready(identity: Identity)
    | Wiping

  /** One deletion of an erase. Only the closing Enclave teardown does not gate the route. */
  datatype Op =
    | DeleteIdentity
    | DropSessions
    | DropEnclave(gating: bool)
    | DropSessionKey
    | DropNostr
    | DropContacts
    | DropStore
    | DropResidue

  /**
   An erase is spawned by a tap, waits on its continuation, runs its gate, then works off `todo`.
   `full` says the assembled wipe was part of it, `hadContacts` what it found.
   */
  datatype Erase =
    | Spawned
    | Waiting
    | Resumed
    | Sweeping(todo: seq<Op>, failed: bool, full: bool, hadContacts: bool)
    | Ended

  /**
   `mounted` is the arm on screen with the values it was rendered from; `waiter` is
   `wipingAppeared`; `tapped` is the onboarding view's own flag, `pending` counts its
   generation tasks still running; `handles` are store handles a released container may
   still hold.
   `cut` and `late` are history: an erase deleted the identity and has not verified its
   finish, and a stale handle wrote after a verified finish.
   */
  datatype State = State(
    world: World, phase: Phase, mounted: Phase,
    tapped: bool, pending: nat,
    waiter: Option<nat>, erases: map<nat, Erase>, nextErase: nat,
    assembled: bool, handles: bool,
    cut: bool, late: bool)

  /** What the platform answers during one bootstrap. */
  datatype Boot = Boot(
    readable: bool, filesTouched: bool, containerOk: bool,
    keyMade: bool, nostrMade: bool, contactsMade: bool, stackOk: bool)

  datatype Event =
    | Render
    | Bootstrap(boot: Boot)
    | AcceptEula
    | TapBegin
    | Complete(identity: Identity, wrapped: bool, saveOk: bool, boot: Boot)
    | TapErase
    | EraseBegin(k: nat)
    | EraseGate(k: nat, ok: bool)
    | EraseOp(k: nat, ok: bool)
    | EraseVerify(k: nat, resolvable: bool)
    | LateWrite
    | CloseHandles
    | Relaunch
    | Reinstall

  const CLEAN := World(None, false, false, false, false, false, false)

  function Launch(w: World): State {
    State(w, Launching, Launching, false, 0, None, map[], 0, false, false, false, false)
  }

  /** An absent item is reported as absent, or not answered at all; a present one is never "not found". */
  function Load(w: World, readable: bool): Result<Identity, LoadError> {
    if !readable then Err(Unreadable)
    else if w.identity.None? then Err(NotFound)
    else Ok(w.identity.value)
  }

  function BuildStack(boot: Boot): Identity -> Result<(), ()> {
    (_: Identity) => if boot.containerOk && boot.stackOk then Ok(()) else Err(())
  }

  function Enter(route: Route): Phase {
    match route
    case ToOnboarding => Onboarding
    case ToBootFailed(failure) => BootFailed(failure)
    case ToReady(identity, _) => Ready(identity)
  }

  /** `bootstrap`: route, leave whatever the stack build created, then the EULA gate. */
  function BootstrapStep(s: State, boot: Boot): (r: State)
    ensures r.erases == s.erases && r.waiter == s.waiter && r.nextErase == s.nextErase
  {
    var route := RouteBoot(Load(s.world, boot.readable), BuildStack(boot));
    var s1 := if boot.readable && s.world.identity.Some? then Provision(s, boot) else s;
    s1.(phase := if route.ToBootFailed? || s.world.eulaAccepted then Enter(route) else Eula(route))
  }

  function Provision(s: State, boot: Boot): State {
    var w := s.world;
    var w1 := w.(storeFiles := w.storeFiles || boot.filesTouched || boot.containerOk);
    if !boot.containerOk then s.(world := w1)
    else
      s.(world := w1.(sessionKey := w.sessionKey || boot.keyMade || boot.stackOk,
                      nostrSecret := w.nostrSecret || boot.nostrMade,
                      contactStores := w.contactStores || boot.contactsMade || boot.stackOk),
         assembled := s.assembled || boot.stackOk,
         handles := true)
  }

  /** The item and the Enclave key that wraps it are in place. */
  function Saved(s: State, identity: Identity): (r: State)
    ensures r.erases == s.erases && r.waiter == s.waiter && r.nextErase == s.nextErase
  {
    s.(world := s.world.(enclaveKey := true, identity := Some(identity)), cut := false)
  }

  /** `completeOnboarding`: the `alreadyExists` branch is the tripwire. */
  function CompleteStep(s: State, identity: Identity, wrapped: bool, saveOk: bool, boot: Boot): State {
    if !saveOk then s.(world := s.world.(enclaveKey := s.world.enclaveKey || wrapped))
    else if s.world.identity.Some? then
      s.(world := s.world.(enclaveKey := true), phase := BootFailed(IdentityUnreadable))
    else BootstrapStep(Saved(s, identity), boot)
  }

  const DOOR_SWEEP := [DropStore, DropSessionKey, DropNostr, DropEnclave(false)]

  function Program(assembled: bool): seq<Op> {
    (if assembled
     then [DropSessions, DeleteIdentity, DropEnclave(true), DropSessionKey, DropNostr, DropContacts, DropStore, DropResidue]
     else [])
    + DOOR_SWEEP
  }

  function Apply(w: World, op: Op): (r: World)
    ensures r.identity == w.identity || r.identity.None?
    ensures r.enclaveKey == w.enclaveKey || op.DropEnclave?
  {
    match op
    case DeleteIdentity => w.(identity := None)
    case DropSessions => w
    case DropEnclave(_) => w.(enclaveKey := false)
    case DropSessionKey => w.(sessionKey := false)
    case DropNostr => w.(nostrSecret := false)
    case DropContacts => w.(contactStores := false)
    case DropStore => w.(storeFiles := false)
    case DropResidue => w
  }

  function GateStep(s: State, k: nat, ok: bool): (r: State)
    ensures k in r.erases && r.erases == s.erases[k := r.erases[k]] && (r.erases[k].Sweeping? || r.erases[k].Ended?)
    ensures r.world == if ok then s.world.(identity := None) else s.world
  {
    if ok then
      s.(world := s.world.(identity := None), cut := true,
         erases := s.erases[k := Sweeping(Program(s.assembled), false, s.assembled, s.world.contactStores)])
    else
      s.(phase := BootFailed(IdentityUnreadable), erases := s.erases[k := Ended])
  }

  function NextErase(e: Erase, ok: bool): Erase
    requires e.Sweeping? && e.todo != []
  {
    var op := e.todo[0];
    e.(todo := e.todo[1..], failed := e.failed || (!ok && (op.DropEnclave? ==> op.gating)))
  }

  function OpStep(s: State, k: nat, e: Erase, ok: bool): (r: State)
    requires e.Sweeping? && e.todo != []
    ensures k in r.erases && r.erases == s.erases[k := r.erases[k]] && r.erases[k].Sweeping?
    ensures r.world == if ok then Apply(s.world, e.todo[0]) else s.world
  {
    s.(world := if ok then Apply(s.world, e.todo[0]) else s.world, erases := s.erases[k := NextErase(e, ok)])
  }

  function VerifyStep(s: State, k: nat, e: Erase, resolvable: bool): (r: State)
    requires e.Sweeping?
    ensures k in r.erases && r.erases == s.erases[k := r.erases[k]] && r.erases[k].Ended? && r.world == s.world
  {
    var s1 := s.(erases := s.erases[k := Ended]);
    if !e.failed && resolvable && !s.world.storeFiles
    then s1.(phase := Onboarding, cut := false)
    else s1.(phase := BootFailed(IdentityUnreadable))
  }

  /** Commit `phase` to the screen; entering the wiping arm fires its `onAppear`. */
  function RenderStep(s: State): (r: State)
    ensures r.world == s.world && r.nextErase == s.nextErase
  {
    var s1 := s.(mounted := s.phase,
                 tapped := if s.phase.Onboarding? && !s.mounted.Onboarding? then false else s.tapped);
    if s.phase.Wiping? && !s.mounted.Wiping? && s.waiter.Some?
    then s1.(waiter := None, erases := s.erases[s.waiter.value := Resumed])
    else s1
  }

  function Restart(s: State, w: World): State {
    Launch(w).(nextErase := s.nextErase, cut := s.cut, late := s.late)
  }

  function Step(s: State, e: Event): State {
    match e
    case Render => RenderStep(s)
    case Bootstrap(boot) =>
      if s.mounted.Launching? || s.mounted.BootFailed? then BootstrapStep(s, boot) else s
    case AcceptEula =>
      if s.mounted.Eula?
      then s.(world := s.world.(eulaAccepted := true), phase := Enter(s.mounted.route))
      else s
    case TapBegin =>
      if s.mounted.Onboarding? && !s.tapped then s.(tapped := true, pending := s.pending + 1) else s
    case Complete(identity, wrapped, saveOk, boot) =>
      if s.pending > 0 then CompleteStep(s.(pending := s.pending - 1), identity, wrapped, saveOk, boot) else s
    case TapErase =>
      if s.mounted.Ready? || s.mounted.BootFailed?
      then s.(erases := s.erases[s.nextErase := Spawned], nextErase := s.nextErase + 1)
      else s
    case EraseBegin(k) =>
      if k in s.erases && s.erases[k].Spawned?
      then s.(erases := s.erases[k := Waiting], waiter := Some(k), phase := Wiping)
      else s
    case EraseGate(k, ok) =>
      if k in s.erases && s.erases[k].Resumed? then GateStep(s, k, ok) else s
    case EraseOp(k, ok) =>
      if k in s.erases && s.erases[k].Sweeping? && s.erases[k].todo != []
      then OpStep(s, k, s.erases[k], ok)
      else s
    case EraseVerify(k, resolvable) =>
      if k in s.erases && s.erases[k].Sweeping? && s.erases[k].todo == []
      then VerifyStep(s, k, s.erases[k], resolvable)
      else s
    case LateWrite =>
      if s.handles
      then s.(world := s.world.(storeFiles := true), late := s.late || (s.world.identity.None? && !s.cut))
      else s
    case CloseHandles => s.(handles := false)
    case Relaunch => Restart(s, s.world)
    case Reinstall =>
      Restart(s, s.world.(storeFiles := false, contactStores := false, eulaAccepted := false))
  }

  function Run(es: seq<Event>): State {
    if es == [] then Launch(CLEAN) else Step(Run(es[..|es| - 1]), es[|es| - 1])
  }

  // ----- What is promised -----

  /** A route to onboarding is true only of a device without an identity, one to ready only of a device with it. */
  predicate RouteTrue(route: Route, w: World) {
    match route
    case ToOnboarding => w.identity.None?
    case ToReady(identity, _) => w.identity == Some(identity)
    case ToBootFailed(failure) => failure.StackFailed? ==> w.identity.Some?
  }

  predicate PhaseTrue(p: Phase, w: World) {
    match p
    case Onboarding => w.identity.None?
    case Ready(identity) => w.identity == Some(identity)
    case BootFailed(failure) => failure.StackFailed? ==> w.identity.Some?
    case Eula(route) => RouteTrue(route, w)
    case Launching => true
    case Wiping => true
  }

  predicate PastBarrier(e: Erase) {
    e.Resumed? || e.Sweeping?
  }

  ghost predicate OnePastBarrier(s: State) {
    forall j, k :: j in s.erases && k in s.erases && PastBarrier(s.erases[j]) && PastBarrier(s.erases[k]) ==> j == k
  }

  /** What a sweep has completed without a recorded failure is gone. */
  predicate Swept(w: World, e: Erase)
    requires e.Sweeping?
  {
    && w.identity.None?
    && (!e.failed && DropSessionKey !in e.todo ==> !w.sessionKey)
    && (!e.failed && DropNostr !in e.todo ==> !w.nostrSecret)
    && (!e.failed && e.full && DropContacts !in e.todo ==> !w.contactStores)
    && (!e.failed && e.full && DropEnclave(true) !in e.todo ==> !w.enclaveKey)
    && (!e.full ==> DropContacts !in e.todo && w.contactStores == e.hadContacts)
    && (forall i :: 0 <= i < |e.todo| && e.todo[i] == DeleteIdentity ==> e.full)
  }

  // ----- The inductive invariant -----

  /** While an erase is past its barrier, wiping is the phase and what is on screen. */
  ghost predicate BehindBarrier(s: State) {
    forall k :: k in s.erases && PastBarrier(s.erases[k]) ==> s.phase.Wiping? && s.mounted.Wiping?
  }

  ghost predicate SweepsTrue(s: State) {
    forall k :: k in s.erases && s.erases[k].Sweeping? ==> Swept(s.world, s.erases[k])
  }

  ghost predicate ErasesOk(s: State) {
    && (forall k :: k in s.erases ==> k < s.nextErase)
    && (s.waiter.Some? ==> s.waiter.value in s.erases && s.erases[s.waiter.value].Waiting?)
    && BehindBarrier(s)
    && SweepsTrue(s)
    && OnePastBarrier(s)
  }

  /** Store files without an identity are explained by an unfinished erase or a stale handle. */
  ghost predicate FilesExplained(s: State) {
    s.world.identity.None? && s.world.storeFiles ==> s.cut || s.late
  }

  ghost predicate Inv(s: State) {
    ErasesOk(s) && PhaseTrue(s.phase, s.world) && FilesExplained(s)
  }

  // ----- The steps that break it -----

  ghost predicate NonePast(s: State) {
    forall k :: k in s.erases ==> !PastBarrier(s.erases[k])
  }

  /** The sweep has already taken the Enclave key down. */
  predicate TookEnclave(e: Erase) {
    e.Sweeping? && e.full && !e.failed && DropEnclave(true) !in e.todo
  }

  /**
   A generated identity is handed over under this erase: it is saved, or at least wrapped
   after the erase took the Enclave key down.
   */
  predicate HandedUnder(erase: Erase, saveOk: bool, wrapped: bool) {
    PastBarrier(erase) && (saveOk || (wrapped && TookEnclave(erase)))
  }

  ghost predicate SavesUnderErase(s: State, e: Event) {
    e.Complete? && s.pending > 0 && exists k :: k in s.erases && HandedUnder(s.erases[k], e.saveOk, e.wrapped)
  }

  /** The terms are accepted for a route that no longer holds. */
  predicate AcceptsStaleRoute(s: State, e: Event) {
    e.AcceptEula? && s.mounted.Eula? && !RouteTrue(s.mounted.route, s.world)
  }

  ghost predicate Clash(s: State, e: Event) {
    SavesUnderErase(s, e) || AcceptsStaleRoute(s, e)
  }

  ghost predicate NoClash(es: seq<Event>) {
    es == [] || (NoClash(es[..|es| - 1]) && !Clash(Run(es[..|es| - 1]), es[|es| - 1]))
  }

  // ----- Every other step keeps it -----

  /** The wiping arm appears: nothing was past the barrier, and the waiter is now. */
  lemma AppearsKeeps(s: State)
    requires ErasesOk(s) && s.phase.Wiping? && !s.mounted.Wiping? && s.waiter.Some?
    ensures ErasesOk(s.(mounted := Wiping, waiter := None, erases := s.erases[s.waiter.value := Resumed]))
  {
  }

  lemma RenderErasesOk(s: State)
    requires Inv(s)
    ensures ErasesOk(RenderStep(s))
  {
    if s.phase.Wiping? && !s.mounted.Wiping? && s.waiter.Some? {
      AppearsKeeps(s);
    }
  }

  lemma RenderKeeps(s: State)
    requires Inv(s)
    ensures Inv(RenderStep(s))
  {
    RenderErasesOk(s);
  }

  /** The stack is only ever built, never torn down, and only around an existing identity. */
  lemma BootstrapKeeps(s: State, boot: Boot)
    requires ErasesOk(s) && FilesExplained(s) && NonePast(s)
    ensures Inv(BootstrapStep(s, boot))
  {
    BootstrapErasesOk(s, boot);
  }

  lemma BootstrapErasesOk(s: State, boot: Boot)
    requires ErasesOk(s) && NonePast(s)
    ensures ErasesOk(BootstrapStep(s, boot))
  {
  }

  lemma FailedSaveKeeps(s: State, wrapped: bool)
    requires Inv(s) && (wrapped ==> forall k :: k in s.erases ==> !TookEnclave(s.erases[k]))
    ensures Inv(s.(world := s.world.(enclaveKey := s.world.enclaveKey || wrapped)))
  {
  }

  lemma TripwireKeeps(s: State)
    requires Inv(s) && NonePast(s)
    ensures Inv(s.(world := s.world.(enclaveKey := true), phase := BootFailed(IdentityUnreadable)))
  {
  }

  lemma SaveKeeps(s: State, identity: Identity, boot: Boot)
    requires Inv(s) && NonePast(s)
    ensures Inv(BootstrapStep(Saved(s, identity), boot))
  {
    BootstrapKeeps(Saved(s, identity), boot);
  }

  lemma CompleteKeeps(s: State, identity: Identity, wrapped: bool, saveOk: bool, boot: Boot)
    requires Inv(s) && (saveOk ==> NonePast(s))
    requires wrapped ==> forall k :: k in s.erases ==> !TookEnclave(s.erases[k])
    ensures Inv(CompleteStep(s, identity, wrapped, saveOk, boot))
  {
    if !saveOk {
      FailedSaveKeeps(s, wrapped);
    } else if s.world.identity.Some? {
      TripwireKeeps(s);
    } else {
      SaveKeeps(s, identity, boot);
    }
  }

  lemma TailMembers(todo: seq<Op>, o: Op)
    requires todo != []
    ensures o in todo <==> o == todo[0] || o in todo[1..]
  {
    assert todo == [todo[0]] + todo[1..];
  }

  lemma SweptStep(w: World, e: Erase, ok: bool)
    requires e.Sweeping? && e.todo != [] && Swept(w, e)
    ensures Swept(if ok then Apply(w, e.todo[0]) else w, NextErase(e, ok))
  {
    TailMembers(e.todo, DropSessionKey);
    TailMembers(e.todo, DropNostr);
    TailMembers(e.todo, DropContacts);
    TailMembers(e.todo, DropEnclave(true));
    var e' := NextErase(e, ok);
    forall i | 0 <= i < |e'.todo| && e'.todo[i] == DeleteIdentity
      ensures e'.full
    {
      assert e.todo[i + 1] == DeleteIdentity;
    }
  }

  lemma SweepMoves(s: State, k: nat, w: World, e: Erase)
    requires Inv(s) && k in s.erases && s.erases[k].Sweeping?
    requires e.Sweeping? && Swept(w, e) && (w.storeFiles ==> s.world.storeFiles)
    ensures Inv(s.(world := w, erases := s.erases[k := e]))
  {
  }

  lemma OpKeeps(s: State, k: nat, ok: bool)
    requires Inv(s) && k in s.erases && s.erases[k].Sweeping? && s.erases[k].todo != []
    ensures Inv(OpStep(s, k, s.erases[k], ok))
  {
    SweptStep(s.world, s.erases[k], ok);
    SweepMoves(s, k, if ok then Apply(s.world, s.erases[k].todo[0]) else s.world, NextErase(s.erases[k], ok));
  }

  lemma GateOpens(s: State, k: nat)
    requires Inv(s) && k in s.erases && s.erases[k].Resumed?
    ensures Inv(GateStep(s, k, true))
  {
    ProgramSwept(s.world.(identity := None), s.assembled);
  }

  lemma GateShuts(s: State, k: nat)
    requires Inv(s) && k in s.erases && s.erases[k].Resumed?
    ensures Inv(GateStep(s, k, false))
  {
  }

  lemma GateKeeps(s: State, k: nat, ok: bool)
    requires Inv(s) && k in s.erases && s.erases[k].Resumed?
    ensures Inv(GateStep(s, k, ok))
  {
    if ok {
      GateOpens(s, k);
    } else {
      GateShuts(s, k);
    }
  }

  /** At the start of a sweep everything it is to delete is still ahead. */
  lemma ProgramSwept(w: World, assembled: bool)
    requires w.identity.None?
    ensures Swept(w, Sweeping(Program(assembled), false, assembled, w.contactStores))
  {
    var todo := Program(assembled);
    assert DropSessionKey == todo[|todo| - 3] && DropNostr == todo[|todo| - 2];
    assert assembled ==> todo[5] == DropContacts && todo[2] == DropEnclave(true);
  }

  lemma VerifyKeeps(s: State, k: nat, resolvable: bool)
    requires Inv(s) && k in s.erases && s.erases[k].Sweeping? && s.erases[k].todo == []
    ensures Inv(VerifyStep(s, k, s.erases[k], resolvable))
  {
  }

  lemma TapEraseKeeps(s: State)
    requires Inv(s) && (s.mounted.Ready? || s.mounted.BootFailed?)
    ensures Inv(Step(s, TapErase))
  {
  }

  lemma EraseBeginKeeps(s: State, k: nat)
    requires Inv(s) && k in s.erases && s.erases[k].Spawned?
    ensures Inv(Step(s, EraseBegin(k)))
  {
  }

  lemma EraseKeeps(s: State, e: Event)
    requires Inv(s) && (e.EraseBegin? || e.EraseGate? || e.EraseOp? || e.EraseVerify?)
    ensures Inv(Step(s, e))
  {
    if e.k in s.erases {
      var erase := s.erases[e.k];
      if e.EraseBegin? && erase.Spawned? {
        EraseBeginKeeps(s, e.k);
      } else if e.EraseGate? && erase.Resumed? {
        GateKeeps(s, e.k, e.ok);
      } else if e.EraseOp? && erase.Sweeping? && erase.todo != [] {
        OpKeeps(s, e.k, e.ok);
      } else if e.EraseVerify? && erase.Sweeping? && erase.todo == [] {
        VerifyKeeps(s, e.k, e.resolvable);
      }
    }
  }

  lemma AmbientKeeps(s: State, e: Event)
    requires Inv(s) && (e.LateWrite? || e.CloseHandles? || e.Relaunch? || e.Reinstall?)
    ensures Inv(Step(s, e))
  {
  }

  lemma AcceptKeeps(s: State)
    requires Inv(s) && s.mounted.Eula? && RouteTrue(s.mounted.route, s.world)
    ensures Inv(Step(s, AcceptEula))
  {
    assert forall k :: k in s.erases ==> !PastBarrier(s.erases[k]);
  }

  lemma TapKeeps(s: State, e: Event)
    requires Inv(s) && !AcceptsStaleRoute(s, e) && (e.AcceptEula? || e.TapBegin? || e.TapErase?)
    ensures Inv(Step(s, e))
  {
    if e.TapErase? && (s.mounted.Ready? || s.mounted.BootFailed?) {
      TapEraseKeeps(s);
    } else if e.AcceptEula? && s.mounted.Eula? {
      AcceptKeeps(s);
    }
  }

  lemma NothingHandedUnder(s: State, identity: Identity, wrapped: bool, saveOk: bool, boot: Boot)
    requires s.pending > 0 && !SavesUnderErase(s, Complete(identity, wrapped, saveOk, boot))
    ensures saveOk ==> NonePast(s)
    ensures wrapped ==> forall k :: k in s.erases ==> !TookEnclave(s.erases[k])
  {
    forall k | k in s.erases
      ensures !HandedUnder(s.erases[k], saveOk, wrapped)
    {
    }
  }

  lemma StepKeeps(s: State, e: Event)
    requires Inv(s) && !Clash(s, e)
    ensures Inv(Step(s, e))
  {
    match e
    case Render =>
      RenderKeeps(s);
    case Bootstrap(boot) =>
      if s.mounted.Launching? || s.mounted.BootFailed? {
        BootstrapKeeps(s, boot);
      }
    case Complete(identity, wrapped, saveOk, boot) =>
      if s.pending > 0 {
        NothingHandedUnder(s, identity, wrapped, saveOk, boot);
        CompleteKeeps(s.(pending := s.pending - 1), identity, wrapped, saveOk, boot);
      }
    case AcceptEula => TapKeeps(s, e);
    case TapBegin => TapKeeps(s, e);
    case TapErase => TapKeeps(s, e);
    case EraseBegin(_) => EraseKeeps(s, e);
    case EraseGate(_, _) => EraseKeeps(s, e);
    case EraseOp(_, _) => EraseKeeps(s, e);
    case EraseVerify(_, _) => EraseKeeps(s, e);
    case LateWrite => AmbientKeeps(s, e);
    case CloseHandles => AmbientKeeps(s, e);
    case Relaunch => AmbientKeeps(s, e);
    case Reinstall => AmbientKeeps(s, e);
  }

  lemma {:induction false} RunKeeps(es: seq<Event>)
    requires NoClash(es)
    ensures Inv(Run(es))
  {
    if es != [] {
      RunKeeps(es[..|es| - 1]);
      StepKeeps(Run(es[..|es| - 1]), es[|es| - 1]);
    }
  }

  lemma BootstrapLeavesWiping(s: State, boot: Boot)
    ensures !BootstrapStep(s, boot).phase.Wiping?
  {
  }

  lemma StaleBreaks(s: State)
    requires s.mounted.Eula? && !RouteTrue(s.mounted.route, s.world)
    ensures !PhaseTrue(Step(s, AcceptEula).phase, Step(s, AcceptEula).world)
  {
  }

  lemma NotInv(s: State)
    requires !BehindBarrier(s) || !SweepsTrue(s)
    ensures !Inv(s)
  {
  }

  lemma HandedUnderBreaks(s: State, k: nat, identity: Identity, wrapped: bool, saveOk: bool, boot: Boot)
    requires k in s.erases && HandedUnder(s.erases[k], saveOk, wrapped)
    ensures !Inv(CompleteStep(s, identity, wrapped, saveOk, boot))
  {
    if saveOk {
      SaveBreaks(s, k, identity, wrapped, boot);
    } else {
      WrapBreaks(s, k, identity, boot);
    }
    NotInv(CompleteStep(s, identity, wrapped, saveOk, boot));
  }

  lemma HandsOver(s: State, identity: Identity, wrapped: bool, saveOk: bool, boot: Boot)
    requires s.pending > 0
    ensures Step(s, Complete(identity, wrapped, saveOk, boot))
      == CompleteStep(s.(pending := s.pending - 1), identity, wrapped, saveOk, boot)
  {
  }

  lemma SaveUnderEraseBreaks(s: State, identity: Identity, wrapped: bool, saveOk: bool, boot: Boot)
    requires SavesUnderErase(s, Complete(identity, wrapped, saveOk, boot))
    ensures !Inv(Step(s, Complete(identity, wrapped, saveOk, boot)))
  {
    var k :| k in s.erases && HandedUnder(s.erases[k], saveOk, wrapped);
    HandsOver(s, identity, wrapped, saveOk, boot);
    HandedUnderBreaks(s.(pending := s.pending - 1), k, identity, wrapped, saveOk, boot);
  }

  /** A clash breaks the invariant on the spot. */
  lemma ClashBreaks(s: State, e: Event)
    requires Inv(s) && Clash(s, e)
    ensures !Inv(Step(s, e))
  {
    if e.Complete? {
      SaveUnderEraseBreaks(s, e.identity, e.wrapped, e.saveOk, e.boot);
    } else {
      StaleBreaks(s);
    }
  }

  lemma SaveBreaks(s: State, k: nat, identity: Identity, wrapped: bool, boot: Boot)
    requires k in s.erases && PastBarrier(s.erases[k])
    ensures !BehindBarrier(CompleteStep(s, identity, wrapped, true, boot))
  {
    BootstrapLeavesWiping(Saved(s, identity), boot);
    var s' := CompleteStep(s, identity, wrapped, true, boot);
    assert s'.erases == s.erases && !s'.phase.Wiping?;
  }

  lemma WrapBreaks(s: State, k: nat, identity: Identity, boot: Boot)
    requires k in s.erases && TookEnclave(s.erases[k])
    ensures !SweepsTrue(CompleteStep(s, identity, true, false, boot))
  {
    var s' := CompleteStep(s, identity, true, false, boot);
    assert s'.erases == s.erases && s'.world.enclaveKey;
    assert !Swept(s'.world, s.erases[k]);
  }

  ghost predicate AlwaysInv(es: seq<Event>) {
    Inv(Run(es)) && (es == [] || AlwaysInv(es[..|es| - 1]))
  }

  /** Over every run: everything promised holds throughout exactly if no step clashes. */
  lemma {:induction false} PromisesHoldExactly(es: seq<Event>)
    ensures AlwaysInv(es) <==> NoClash(es)
  {
    if es != [] {
      var front, e := es[..|es| - 1], es[|es| - 1];
      PromisesHoldExactly(front);
      if NoClash(front) {
        RunKeeps(front);
        if Clash(Run(front), e) {
          ClashBreaks(Run(front), e);
        } else {
          StepKeeps(Run(front), e);
        }
      }
    }
  }

  // ----- Theorems over every run from a clean install without a clash -----

  /** What the screen claims about the identity is true of the Keychain. */
  lemma PhasesTellTheTruth(es: seq<Event>)
    requires NoClash(es)
    ensures PhaseTrue(Run(es).phase, Run(es).world)
  {
    RunKeeps(es);
  }

  predicate Lost(w: World, w': World) {
    || (w.identity.Some? && w'.identity != w.identity)
    || (w.enclaveKey && !w'.enclaveKey)
    || (w.storeFiles && !w'.storeFiles)
    || (w.sessionKey && !w'.sessionKey)
    || (w.nostrSecret && !w'.nostrSecret)
    || (w.contactStores && !w'.contactStores)
  }

  lemma BootstrapLosesNothing(s: State, boot: Boot)
    ensures !Lost(s.world, BootstrapStep(s, boot).world)
  {
  }

  /** Completing onboarding only adds to what is there. */
  lemma CompleteLosesNothing(s: State, identity: Identity, wrapped: bool, saveOk: bool, boot: Boot)
    ensures !Lost(s.world, CompleteStep(s, identity, wrapped, saveOk, boot).world)
  {
    if saveOk && s.world.identity.None? {
      BootstrapLosesNothing(Saved(s, identity), boot);
      LostThrough(s.world, Saved(s, identity).world, BootstrapStep(Saved(s, identity), boot).world);
    }
  }

  lemma LostThrough(w: World, w1: World, w2: World)
    requires !Lost(w, w1) && !Lost(w1, w2)
    ensures !Lost(w, w2)
  {
  }

  lemma QuietLosesNothing(s: State, e: Event)
    requires e.Render? || e.AcceptEula? || e.TapBegin? || e.TapErase? || e.EraseBegin? || e.EraseVerify?
          || e.LateWrite? || e.CloseHandles? || e.Relaunch?
    ensures !Lost(s.world, Step(s, e).world)
  {
    if !e.AcceptEula? && !e.LateWrite? {
      QuietKeepsWorld(s, e);
    }
  }

  lemma QuietKeepsWorld(s: State, e: Event)
    requires e.Render? || e.TapBegin? || e.TapErase? || e.EraseBegin? || e.EraseVerify? || e.CloseHandles? || e.Relaunch?
    ensures Step(s, e).world == s.world
  {
  }

  lemma OnlyErasesLose(s: State, e: Event)
    requires !e.Reinstall? && !e.EraseGate? && !e.EraseOp?
    ensures !Lost(s.world, Step(s, e).world)
  {
    if e.Bootstrap? {
      BootstrapLosesNothing(s, e.boot);
    } else if e.Complete? {
      if s.pending > 0 {
        CompleteLosesNothing(s.(pending := s.pending - 1), e.identity, e.wrapped, e.saveOk, e.boot);
      }
    } else {
      QuietLosesNothing(s, e);
    }
  }

  /** Short of reinstalling the app, nothing is lost unless the wiping arm is what is on screen. */
  lemma DeletesOnlyBehindBarrier(es: seq<Event>, e: Event)
    requires NoClash(es) && !e.Reinstall? && Lost(Run(es).world, Step(Run(es), e).world)
    ensures Run(es).mounted.Wiping? && (e.EraseGate? || e.EraseOp?)
  {
    RunKeeps(es);
    if !e.EraseGate? && !e.EraseOp? {
      OnlyErasesLose(Run(es), e);
    }
  }

  /** No step from any state replaces an identity by another; at most it is gone. */
  lemma IdentityNeverReplaced(s: State, e: Event)
    requires s.world.identity.Some?
    ensures var w' := Step(s, e).world;
      w'.identity == s.world.identity || w'.identity.None?
  {
    if e.EraseGate? || e.EraseOp? {
      SweepMakesNoIdentity(s, e);
    } else if !e.Reinstall? {
      OnlyErasesLose(s, e);
    }
  }

  lemma SweepMakesNoIdentity(s: State, e: Event)
    requires e.EraseGate? || e.EraseOp?
    ensures Step(s, e).world.identity == s.world.identity || Step(s, e).world.identity.None?
  {
  }

  /** An Enclave key is only ever destroyed after the identity it wraps is gone. */
  lemma EnclaveKeyOutlivesIdentity(es: seq<Event>, e: Event)
    requires NoClash(es) && Run(es).world.enclaveKey && !Step(Run(es), e).world.enclaveKey
    ensures Run(es).world.identity.None?
  {
    RunKeeps(es);
    if e.EraseGate? || e.EraseOp? {
      SweepTakesEnclaveLast(Run(es), e);
    } else if !e.Reinstall? {
      OnlyErasesLose(Run(es), e);
    }
  }

  lemma SweepTakesEnclaveLast(s: State, e: Event)
    requires ErasesOk(s) && (e.EraseGate? || e.EraseOp?)
    requires s.world.enclaveKey && !Step(s, e).world.enclaveKey
    ensures s.world.identity.None?
  {
  }

  lemma OneEraseAtATime(es: seq<Event>)
    requires NoClash(es)
    ensures OnePastBarrier(Run(es))
  {
    RunKeeps(es);
  }

  predicate LeavesErases(e: Event) {
    e.Bootstrap? || e.Complete? || e.AcceptEula? || e.TapBegin? || e.LateWrite? || e.CloseHandles?
  }

  lemma ErasesUntouched(s: State, e: Event)
    requires LeavesErases(e)
    ensures Step(s, e).erases == s.erases && Step(s, e).waiter == s.waiter && Step(s, e).nextErase == s.nextErase
  {
    if e.Complete? && s.pending > 0 {
      CompleteLeavesErases(s.(pending := s.pending - 1), e.identity, e.wrapped, e.saveOk, e.boot);
    }
  }

  lemma CompleteLeavesErases(s: State, identity: Identity, wrapped: bool, saveOk: bool, boot: Boot)
    ensures CompleteStep(s, identity, wrapped, saveOk, boot).erases == s.erases
    ensures CompleteStep(s, identity, wrapped, saveOk, boot).waiter == s.waiter
    ensures CompleteStep(s, identity, wrapped, saveOk, boot).nextErase == s.nextErase
  {
  }

  // ----- Continuations, over every run, ordered or not -----

  /** This render fires the continuation of erase `k`. */
  predicate Fires(s: State, e: Event, k: nat) {
    e.Render? && s.phase.Wiping? && !s.mounted.Wiping? && s.waiter == Some(k)
  }

  ghost predicate WaiterOk(s: State) {
    && (forall k :: k in s.erases ==> k < s.nextErase)
    && (s.waiter.Some? ==> s.waiter.value in s.erases && s.erases[s.waiter.value].Waiting?)
  }

  lemma WaiterSweep(s: State, e: Event)
    requires WaiterOk(s) && (e.EraseGate? || e.EraseOp? || e.EraseVerify?)
    ensures WaiterOk(Step(s, e))
  {
    SweepMovesOne(s, e);
  }

  /** A gate, deletion or verification moves its own erase, which is not waiting, and no other. */
  lemma SweepMovesOne(s: State, e: Event)
    requires e.EraseGate? || e.EraseOp? || e.EraseVerify?
    ensures var s' := Step(s, e);
      && s'.waiter == s.waiter && s'.nextErase == s.nextErase
      && (s'.erases == s.erases || (e.k in s.erases && PastBarrier(s.erases[e.k])
          && e.k in s'.erases && s'.erases == s.erases[e.k := s'.erases[e.k]]
          && (s'.erases[e.k].Sweeping? || s'.erases[e.k].Ended?)))
  {
  }

  lemma WaiterStep(s: State, e: Event)
    requires WaiterOk(s)
    ensures WaiterOk(Step(s, e))
  {
    if LeavesErases(e) {
      ErasesUntouched(s, e);
    } else if e.EraseGate? || e.EraseOp? || e.EraseVerify? {
      WaiterSweep(s, e);
    } else if e.Render? {
      WaiterRender(s);
    }
  }

  lemma WaiterRender(s: State)
    requires WaiterOk(s)
    ensures WaiterOk(RenderStep(s))
  {
  }

  lemma {:induction false} WaiterKeeps(es: seq<Event>)
    ensures WaiterOk(Run(es))
  {
    if es != [] {
      WaiterKeeps(es[..|es| - 1]);
      WaiterStep(Run(es[..|es| - 1]), es[|es| - 1]);
    }
  }

  /** A continuation is fired only while its erase waits on it. */
  lemma FiresOnlyWaiting(es: seq<Event>, e: Event, k: nat)
    requires Fires(Run(es), e, k)
    ensures k in Run(es).erases && Run(es).erases[k].Waiting? && Step(Run(es), e).erases[k].Resumed?
  {
    WaiterKeeps(es);
  }

  /** The erase has been resumed, or its process is gone. */
  ghost predicate PastWaiting(s: State, k: nat) {
    k < s.nextErase && (k in s.erases ==> !s.erases[k].Waiting? && !s.erases[k].Spawned?)
  }

  lemma PastWaitingStep(s: State, e: Event, k: nat)
    requires WaiterOk(s) && PastWaiting(s, k)
    ensures PastWaiting(Step(s, e), k)
  {
    if LeavesErases(e) {
      ErasesUntouched(s, e);
    } else if e.EraseGate? || e.EraseOp? || e.EraseVerify? {
      SweepMovesOne(s, e);
    }
  }

  lemma {:induction false} PastWaitingAfter(es: seq<Event>, i: nat, k: nat)
    requires i < |es| && Fires(Run(es[..i]), es[i], k)
    ensures PastWaiting(Run(es), k)
  {
    var n := |es| - 1;
    WaiterKeeps(es[..n]);
    if i < n {
      assert es[..n][..i] == es[..i] && es[..n][i] == es[i];
      PastWaitingAfter(es[..n], i, k);
      PastWaitingStep(Run(es[..n]), es[n], k);
    }
  }

  /** No two steps of a run fire the same continuation. */
  lemma ResumesAtMostOnce(es: seq<Event>, i: nat, j: nat, k: nat)
    requires i < j < |es| && Fires(Run(es[..i]), es[i], k)
    ensures !Fires(Run(es[..j]), es[j], k)
  {
    assert es[..j][..i] == es[..i] && es[..j][i] == es[i];
    PastWaitingAfter(es[..j], i, k);
    WaiterKeeps(es[..j]);
  }

  // ----- Routes -----

  /** An erase that routes to onboarding recorded no failure and left none of what it swept. */
  lemma EraseReachesOnboardingClean(es: seq<Event>, k: nat, resolvable: bool)
    requires NoClash(es) && k in Run(es).erases && Run(es).erases[k].Sweeping? && Run(es).erases[k].todo == []
    requires Step(Run(es), EraseVerify(k, resolvable)).phase.Onboarding?
    ensures var w, e := Run(es).world, Run(es).erases[k];
      && !e.failed && w.identity.None? && !w.storeFiles && !w.sessionKey && !w.nostrSecret
      && (e.full ==> !w.enclaveKey)
      && (w.contactStores <==> !e.full && e.hadContacts)
  {
    RunKeeps(es);
    SweptClean(Run(es), k, resolvable);
  }

  lemma SweptClean(s: State, k: nat, resolvable: bool)
    requires k in s.erases && s.erases[k].Sweeping? && s.erases[k].todo == [] && Swept(s.world, s.erases[k])
    requires VerifyStep(s, k, s.erases[k], resolvable).phase.Onboarding?
    ensures var w, e := s.world, s.erases[k];
      && !e.failed && w.identity.None? && !w.storeFiles && !w.sessionKey && !w.nostrSecret
      && (e.full ==> !w.enclaveKey)
      && (w.contactStores <==> !e.full && e.hadContacts)
  {
  }

  /** Onboarding over surviving store files means an erase was cut short, or a stale handle wrote late. */
  lemma OnboardingOverFilesExplained(es: seq<Event>)
    requires NoClash(es)
    requires var s := Run(es);
      (s.phase.Onboarding? || s.phase == Eula(ToOnboarding)) && s.world.storeFiles
    ensures Run(es).cut || Run(es).late
  {
    RunKeeps(es);
  }

  /** From any state, such an onboarding is entered by a boot or by accepting the terms it held, never by an erase. */
  lemma OnboardingOverFilesEntered(s: State, e: Event)
    requires !s.phase.Onboarding? && Step(s, e).phase.Onboarding? && Step(s, e).world.storeFiles
    ensures e.Bootstrap? || e.AcceptEula?
  {
    if e.Complete? && s.pending > 0 {
      CompleteAvoidsOnboarding(s.(pending := s.pending - 1), e.identity, e.wrapped, e.saveOk, e.boot);
    }
  }

  lemma CompleteAvoidsOnboarding(s: State, identity: Identity, wrapped: bool, saveOk: bool, boot: Boot)
    requires !s.phase.Onboarding?
    ensures !CompleteStep(s, identity, wrapped, saveOk, boot).phase.Onboarding?
  {
  }

  // ----- What follows from a given state -----

  function Continue(s: State, es: seq<Event>): State {
    if es == [] then s else Step(Continue(s, es[..|es| - 1]), es[|es| - 1])
  }

  ghost predicate NoRestart(es: seq<Event>) {
    forall i :: 0 <= i < |es| ==> !es[i].Relaunch? && !es[i].Reinstall?
  }

  /** A later erase took over the continuation slot. */
  predicate Orphaned(s: State, k: nat) {
    k < s.nextErase && k in s.erases && s.erases[k].Waiting? && s.waiter != Some(k)
  }

  lemma OrphanStep(s: State, e: Event, k: nat)
    requires Orphaned(s, k) && !e.Relaunch? && !e.Reinstall?
    ensures Orphaned(Step(s, e), k)
  {
    if LeavesErases(e) {
      ErasesUntouched(s, e);
    } else if e.EraseGate? || e.EraseOp? || e.EraseVerify? {
      SweepMovesOne(s, e);
    }
  }

  /** An erase whose continuation was overwritten stays suspended for the rest of the process. */
  lemma {:induction false} OrphanedEraseNeverRuns(s: State, more: seq<Event>, k: nat)
    requires Orphaned(s, k) && NoRestart(more)
    ensures Orphaned(Continue(s, more), k)
  {
    if more != [] {
      var prefix := more[..|more| - 1];
      OrphanedEraseNeverRuns(s, prefix, k);
      OrphanStep(Continue(s, prefix), more[|more| - 1], k);
    }
  }

  ghost predicate NoneSpawned(s: State) {
    forall k :: k in s.erases ==> !s.erases[k].Spawned?
  }

  /** Onboarding on screen, one generation running, nothing else under way. */
  ghost predicate OnlyGenerating(s: State) {
    s.phase.Onboarding? && s.mounted.Onboarding? && s.tapped && s.pending == 1 && NoneSpawned(s)
  }

  /** Onboarding on screen, its view already tapped, nothing in flight. */
  ghost predicate Stuck(s: State) {
    s.phase.Onboarding? && s.mounted.Onboarding? && s.tapped && s.pending == 0 && NoneSpawned(s)
  }

  lemma FailedSaveSticks(s: State, identity: Identity, wrapped: bool, boot: Boot)
    requires Inv(s) && OnlyGenerating(s)
    ensures Inv(Step(s, Complete(identity, wrapped, false, boot)))
    ensures Stuck(Step(s, Complete(identity, wrapped, false, boot)))
  {
    assert forall k :: k in s.erases ==> !TookEnclave(s.erases[k]);
    StepKeeps(s, Complete(identity, wrapped, false, boot));
  }

  lemma StuckNoClash(s: State, e: Event)
    requires Inv(s) && Stuck(s)
    ensures !Clash(s, e)
  {
  }

  lemma StuckStep(s: State, e: Event)
    requires Inv(s) && Stuck(s) && !e.Relaunch? && !e.Reinstall?
    ensures Stuck(Step(s, e)) && Inv(Step(s, e))
  {
    StuckNoClash(s, e);
    StepKeeps(s, e);
  }

  lemma {:induction false} StuckStays(s: State, more: seq<Event>)
    requires Inv(s) && Stuck(s) && NoRestart(more)
    ensures Inv(Continue(s, more)) && Stuck(Continue(s, more))
  {
    if more != [] {
      var prefix := more[..|more| - 1];
      StuckStays(s, prefix);
      StuckStep(Continue(s, prefix), more[|more| - 1]);
    }
  }

  /** After a failed identity save nothing short of a relaunch leaves onboarding or tries again. */
  lemma FailedSaveIsFinal(es: seq<Event>, identity: Identity, wrapped: bool, boot: Boot, more: seq<Event>)
    requires NoClash(es) && OnlyGenerating(Run(es)) && NoRestart(more)
    ensures Stuck(Continue(Step(Run(es), Complete(identity, wrapped, false, boot)), more))
  {
    RunKeeps(es);
    FailedSaveSticks(Run(es), identity, wrapped, boot);
    StuckStays(Step(Run(es), Complete(identity, wrapped, false, boot)), more);
  }

  // ----- The tripwire -----

  /** The generated identity meets one that is already there. */
  predicate TripwireFires(s: State, e: Event) {
    e.Complete? && s.pending > 0 && e.saveOk && s.world.identity.Some?
  }

  /** Onboarding is begun while a generation runs, or on a device with an identity. */
  predicate BeginsAgain(s: State, e: Event) {
    e.TapBegin? && s.mounted.Onboarding? && !s.tapped && (s.pending > 0 || s.world.identity.Some?)
  }

  /** One generation at most, and none beside an identity. */
  predicate Unclobbered(s: State) {
    s.pending > 0 ==> s.pending == 1 && s.world.identity.None?
  }

  /** Booting leaves the screen, its view and the identity as they are. */
  lemma BootstrapFrame(s: State, boot: Boot)
    ensures var r := BootstrapStep(s, boot);
      r.pending == s.pending && r.tapped == s.tapped && r.mounted == s.mounted && r.world.identity == s.world.identity
  {
  }

  lemma CompleteFrame(s: State, identity: Identity, wrapped: bool, saveOk: bool, boot: Boot)
    ensures var r := CompleteStep(s, identity, wrapped, saveOk, boot);
      r.pending == s.pending && r.tapped == s.tapped && r.mounted == s.mounted
  {
    BootstrapFrame(Saved(s, identity), boot);
  }

  lemma GateFrame(s: State, k: nat, ok: bool)
    ensures var r := GateStep(s, k, ok); r.pending == s.pending && r.tapped == s.tapped && r.mounted == s.mounted
  {
  }

  lemma VerifyFrame(s: State, k: nat, e: Erase, resolvable: bool)
    requires e.Sweeping?
    ensures var r := VerifyStep(s, k, e, resolvable);
      r.pending == s.pending && r.tapped == s.tapped && r.mounted == s.mounted
  {
  }

  lemma SweepFrame(s: State, e: Event)
    requires e.EraseGate? || e.EraseOp? || e.EraseVerify?
    ensures var r := Step(s, e);
      r.pending == s.pending && r.tapped == s.tapped && r.mounted == s.mounted
  {
    if e.EraseGate? {
      GateFrame(s, e.k, e.ok);
    } else if e.EraseVerify? && e.k in s.erases && s.erases[e.k].Sweeping? {
      VerifyFrame(s, e.k, s.erases[e.k], e.resolvable);
    }
  }

  lemma UnclobberedBoot(s: State, e: Event)
    requires Unclobbered(s) && (e.Bootstrap? || e.Complete?)
    ensures Unclobbered(Step(s, e))
  {
    if e.Bootstrap? {
      BootstrapFrame(s, e.boot);
    } else if s.pending > 0 {
      CompleteFrame(s.(pending := s.pending - 1), e.identity, e.wrapped, e.saveOk, e.boot);
    }
  }

  lemma UnclobberedSweep(s: State, e: Event)
    requires Unclobbered(s) && (e.EraseGate? || e.EraseOp? || e.EraseVerify?)
    ensures Unclobbered(Step(s, e))
  {
    SweepFrame(s, e);
    if e.EraseVerify? {
      QuietKeepsWorld(s, e);
    } else {
      SweepMakesNoIdentity(s, e);
    }
  }

  lemma UnclobberedStep(s: State, e: Event)
    requires Unclobbered(s)
    ensures Unclobbered(Step(s, e)) <==> !BeginsAgain(s, e)
  {
    if e.Bootstrap? || e.Complete? {
      UnclobberedBoot(s, e);
    } else if e.EraseGate? || e.EraseOp? || e.EraseVerify? {
      UnclobberedSweep(s, e);
    }
  }

  ghost predicate AlwaysUnclobbered(es: seq<Event>) {
    Unclobbered(Run(es)) && (es == [] || AlwaysUnclobbered(es[..|es| - 1]))
  }

  ghost predicate NoneBeginsAgain(es: seq<Event>) {
    es == [] || (NoneBeginsAgain(es[..|es| - 1]) && !BeginsAgain(Run(es[..|es| - 1]), es[|es| - 1]))
  }

  /** Over every run: no generation ever stands beside another or an identity exactly if none is begun so. */
  lemma {:induction false} UnclobberedExactly(es: seq<Event>)
    ensures AlwaysUnclobbered(es) <==> NoneBeginsAgain(es)
  {
    if es != [] {
      var front := es[..|es| - 1];
      UnclobberedExactly(front);
      if Unclobbered(Run(front)) {
        UnclobberedStep(Run(front), es[|es| - 1]);
      }
      AlwaysLast(front);
    }
  }

  lemma AlwaysLast(es: seq<Event>)
    ensures AlwaysUnclobbered(es) ==> Unclobbered(Run(es))
  {
  }

  /** In such runs the tripwire never fires. */
  lemma TripwireUnreachable(es: seq<Event>, e: Event)
    requires NoneBeginsAgain(es)
    ensures !TripwireFires(Run(es), e)
  {
    UnclobberedExactly(es);
  }

  // ----- An ordering that rules all of this out -----

  /**
   Onboarding is begun only while it is the current phase and no tapped erase has yet to run
   its first segment. The main actor runs a queued segment, and commits a new phase, before
   it delivers a later tap.
   */
  ghost predicate Prompt(s: State, e: Event) {
    e.TapBegin? && s.mounted.Onboarding? && !s.tapped ==> s.phase.Onboarding? && NoneSpawned(s)
  }

  ghost predicate Ordered(es: seq<Event>) {
    es == [] || (Ordered(es[..|es| - 1]) && Prompt(Run(es[..|es| - 1]), es[|es| - 1]))
  }

  ghost predicate Calm(s: State) {
    && (s.pending > 0 ==> OnlyGenerating(s))
    && (s.mounted.Eula? ==> PhaseTrue(s.mounted, s.world))
  }

  lemma CalmNoClash(s: State, e: Event)
    requires Inv(s) && Calm(s) && Prompt(s, e)
    ensures !Clash(s, e) && !BeginsAgain(s, e)
  {
  }

  lemma CalmSweep(s: State, e: Event)
    requires Inv(s) && Calm(s) && (e.EraseGate? || e.EraseOp? || e.EraseVerify?)
    ensures Calm(Step(s, e))
  {
    SweepMovesOne(s, e);
    SweepFrame(s, e);
    if Step(s, e).erases != s.erases {
      assert s.mounted.Wiping?;
    }
  }

  lemma CalmBoot(s: State, e: Event)
    requires Inv(s) && Calm(s) && (e.Bootstrap? || e.Complete?)
    ensures Calm(Step(s, e))
  {
    if e.Bootstrap? {
      if s.mounted.Launching? || s.mounted.BootFailed? {
        BootstrapFrame(s, e.boot);
      }
    } else if s.pending > 0 {
      CompleteFrame(s.(pending := s.pending - 1), e.identity, e.wrapped, e.saveOk, e.boot);
    }
  }

  lemma CalmStep(s: State, e: Event)
    requires Inv(s) && Calm(s) && Prompt(s, e)
    ensures Calm(Step(s, e))
  {
    if e.EraseGate? || e.EraseOp? || e.EraseVerify? {
      CalmSweep(s, e);
    } else if e.Bootstrap? || e.Complete? {
      CalmBoot(s, e);
    }
  }

  lemma {:induction false} OrderedKeeps(es: seq<Event>)
    requires Ordered(es)
    ensures NoClash(es) && NoneBeginsAgain(es) && Inv(Run(es)) && Calm(Run(es))
  {
    if es != [] {
      var s, e := Run(es[..|es| - 1]), es[|es| - 1];
      OrderedKeeps(es[..|es| - 1]);
      CalmNoClash(s, e);
      CalmStep(s, e);
      StepKeeps(s, e);
    }
  }

  /** Under the main actor's ordering no step clashes and no generation is begun beside another. */
  lemma OrderedRunsAreClean(es: seq<Event>)
    requires Ordered(es)
    ensures NoClash(es) && NoneBeginsAgain(es)
    ensures Run(es).pending > 0 ==> OnlyGenerating(Run(es))
  {
    OrderedKeeps(es);
  }

  // ----- A door erase is not a full erase -----

  lemma Extend(es: seq<Event>, s: State, e: Event) returns (es': seq<Event>, s': State)
    requires s == Run(es) && Ordered(es) && Prompt(s, e)
    ensures es' == es + [e] && s' == Step(s, e) && s' == Run(es') && Ordered(es')
  {
    es', s' := es + [e], Step(s, e);
    assert es'[..|es|] == es;
  }

  const ALL_WELL := Boot(true, true, true, true, true, true, true)
  const LOCKED := Boot(false, false, false, false, false, false, false)

  lemma TermsAccepted() returns (es: seq<Event>, s: State)
    ensures s == Run(es) && Ordered(es)
    ensures s == Launch(CLEAN.(eulaAccepted := true)).(phase := Onboarding, mounted := Onboarding)
  {
    es, s := [], Launch(CLEAN);
    es, s := Extend(es, s, Bootstrap(ALL_WELL));
    es, s := Extend(es, s, Render);
    es, s := Extend(es, s, AcceptEula);
    es, s := Extend(es, s, Render);
  }

  lemma OnboardedDevice() returns (es: seq<Event>, s: State)
    ensures s == Run(es) && Ordered(es)
    ensures s == Launch(World(Some(1), true, true, true, true, true, true))
  {
    es, s := TermsAccepted();
    es, s := Extend(es, s, TapBegin);
    es, s := Extend(es, s, Complete(1, true, true, ALL_WELL));
    es, s := Extend(es, s, Relaunch);
  }

  lemma AtTheDoor() returns (es: seq<Event>, s: State)
    ensures s == Run(es) && Ordered(es)
    ensures s == Launch(World(Some(1), true, true, true, true, true, true)).(
      phase := BootFailed(IdentityUnreadable), mounted := BootFailed(IdentityUnreadable))
  {
    es, s := OnboardedDevice();
    es, s := Extend(es, s, Bootstrap(LOCKED));
    es, s := Extend(es, s, Render);
  }

  /** At the door, the erase tapped and its first segment run. */
  lemma DoorEraseWaiting() returns (es: seq<Event>, s: State)
    ensures s == Run(es) && Ordered(es)
    ensures s == Launch(World(Some(1), true, true, true, true, true, true)).(
      phase := Wiping, mounted := BootFailed(IdentityUnreadable), nextErase := 1,
      waiter := Some(0), erases := map[0 := Waiting])
  {
    es, s := AtTheDoor();
    es, s := Extend(es, s, TapErase);
    es, s := Extend(es, s, EraseBegin(0));
  }

  lemma DoorEraseSweeping() returns (es: seq<Event>, s: State)
    ensures s == Run(es) && Ordered(es)
    ensures s == Launch(World(None, true, true, true, true, true, true)).(
      phase := Wiping, mounted := Wiping, cut := true, nextErase := 1,
      erases := map[0 := Sweeping(DOOR_SWEEP, false, false, true)])
  {
    es, s := DoorEraseWaiting();
    es, s := Extend(es, s, Render);
    es, s := Extend(es, s, EraseGate(0, true));
    assert Program(false) == DOOR_SWEEP;
  }

  lemma DoorEraseHalfSwept() returns (es: seq<Event>, s: State)
    ensures s == Run(es) && Ordered(es)
    ensures s == Launch(World(None, true, false, false, true, true, true)).(
      phase := Wiping, mounted := Wiping, cut := true, nextErase := 1,
      erases := map[0 := Sweeping([DropNostr, DropEnclave(false)], false, false, true)])
  {
    es, s := DoorEraseSweeping();
    es, s := Extend(es, s, EraseOp(0, true));
    es, s := Extend(es, s, EraseOp(0, true));
    assert DOOR_SWEEP[1..][1..] == [DropNostr, DropEnclave(false)];
  }

  /**
   Erasing from the door after a boot that could not read the identity routes to
   onboarding with no recorded failure, while the sealed contact stores survive.
   */
  lemma DoorEraseKeepsContactStores() returns (es: seq<Event>)
    ensures var s := Run(es);
      Ordered(es) && s.phase.Onboarding? && s.world.identity.None? && s.world.contactStores && !s.cut && !s.late
  {
    var s;
    es, s := DoorEraseHalfSwept();
    es, s := Extend(es, s, EraseOp(0, true));
    es, s := Extend(es, s, EraseOp(0, true));
    es, s := Extend(es, s, EraseVerify(0, true));
  }

  // ----- A clash -----

  lemma ExtendAnyhow(es: seq<Event>, s: State, e: Event) returns (es': seq<Event>, s': State)
    requires s == Run(es)
    ensures es' == es + [e] && s' == Step(s, e) && s' == Run(es')
  {
    es', s' := es + [e], Step(s, e);
    assert es'[..|es|] == es;
  }

  lemma TappedAtTheDoor() returns (es: seq<Event>, s: State)
    ensures s == Run(es)
    ensures s == Launch(CLEAN).(
      phase := BootFailed(IdentityUnreadable), mounted := BootFailed(IdentityUnreadable),
      nextErase := 1, erases := map[0 := Spawned])
  {
    es, s := [], Launch(CLEAN);
    es, s := ExtendAnyhow(es, s, Bootstrap(LOCKED));
    es, s := ExtendAnyhow(es, s, Render);
    es, s := ExtendAnyhow(es, s, TapErase);
  }

  lemma RetriedUnderTappedErase() returns (es: seq<Event>, s: State)
    ensures s == Run(es)
    ensures s == Launch(CLEAN).(
      phase := Eula(ToOnboarding), mounted := Eula(ToOnboarding), nextErase := 1, erases := map[0 := Spawned])
  {
    es, s := TappedAtTheDoor();
    es, s := ExtendAnyhow(es, s, Bootstrap(ALL_WELL));
    es, s := ExtendAnyhow(es, s, Render);
  }

  /** Erase tapped at the door, then "Try again", the terms, and onboarding begun before the erase has started. */
  lemma BegunUnderTappedErase() returns (es: seq<Event>, s: State)
    ensures s == Run(es)
    ensures s == Launch(CLEAN.(eulaAccepted := true)).(
      phase := Onboarding, mounted := Onboarding, tapped := true, pending := 1,
      nextErase := 1, erases := map[0 := Spawned])
  {
    es, s := RetriedUnderTappedErase();
    es, s := ExtendAnyhow(es, s, AcceptEula);
    es, s := ExtendAnyhow(es, s, Render);
    es, s := ExtendAnyhow(es, s, TapBegin);
  }

  /** The gate has run; the generation is still to come. */
  lemma SweepingUnderGeneration() returns (es: seq<Event>, s: State)
    ensures s == Run(es)
    ensures s == Launch(CLEAN.(eulaAccepted := true)).(
      phase := Wiping, mounted := Wiping, tapped := true, pending := 1, cut := true,
      nextErase := 1, erases := map[0 := Sweeping(DOOR_SWEEP, false, false, false)])
  {
    es, s := BegunUnderTappedErase();
    es, s := ExtendAnyhow(es, s, EraseBegin(0));
    es, s := ExtendAnyhow(es, s, Render);
    es, s := ExtendAnyhow(es, s, EraseGate(0, true));
    assert Program(false) == DOOR_SWEEP;
  }

  lemma SavedUnderSweep() returns (es: seq<Event>, s: State)
    ensures s == Run(es)
    ensures s == Launch(World(Some(1), true, true, true, true, true, true)).(
      phase := Ready(1), mounted := Wiping, tapped := true, assembled := true, handles := true,
      nextErase := 1, erases := map[0 := Sweeping(DOOR_SWEEP, false, false, false)])
  {
    es, s := SweepingUnderGeneration();
    es, s := ExtendAnyhow(es, s, Complete(1, true, true, ALL_WELL));
  }

  lemma SweptUnderIdentity() returns (es: seq<Event>, s: State)
    ensures s == Run(es)
    ensures s == Launch(World(Some(1), true, false, false, true, true, true)).(
      phase := Ready(1), mounted := Wiping, tapped := true, assembled := true, handles := true,
      nextErase := 1, erases := map[0 := Sweeping([DropNostr, DropEnclave(false)], false, false, false)])
  {
    es, s := SavedUnderSweep();
    es, s := ExtendAnyhow(es, s, EraseOp(0, true));
    es, s := ExtendAnyhow(es, s, EraseOp(0, true));
    assert DOOR_SWEEP[1..][1..] == [DropNostr, DropEnclave(false)];
  }

  /** An identity made during an erase, which then routes to onboarding over it. */
  lemma SaveUnderEraseBreaksTruth() returns (es: seq<Event>)
    ensures Run(es).phase.Onboarding? && Run(es).world.identity == Some(1)
  {
    var s;
    es, s := SweptUnderIdentity();
    es, s := ExtendAnyhow(es, s, EraseOp(0, true));
    es, s := ExtendAnyhow(es, s, EraseOp(0, true));
    es, s := ExtendAnyhow(es, s, EraseVerify(0, true));
  }

  // ----- Terms accepted for a stale route -----

  lemma TappedTwice() returns (es: seq<Event>, s: State)
    ensures s == Run(es)
    ensures s == Launch(CLEAN).(
      phase := Wiping, mounted := Wiping, cut := true, nextErase := 2,
      erases := map[0 := Sweeping(DOOR_SWEEP, false, false, false), 1 := Spawned])
  {
    es, s := TappedAtTheDoor();
    es, s := ExtendAnyhow(es, s, TapErase);
    es, s := ExtendAnyhow(es, s, EraseBegin(0));
    es, s := ExtendAnyhow(es, s, Render);
    es, s := ExtendAnyhow(es, s, EraseGate(0, true));
    assert Program(false) == DOOR_SWEEP;
  }

  lemma FirstEraseHalfDone() returns (es: seq<Event>, s: State)
    ensures s == Run(es)
    ensures s == Launch(CLEAN).(
      phase := Wiping, mounted := Wiping, cut := true, nextErase := 2,
      erases := map[0 := Sweeping([DropNostr, DropEnclave(false)], false, false, false), 1 := Spawned])
  {
    es, s := TappedTwice();
    es, s := ExtendAnyhow(es, s, EraseOp(0, true));
    es, s := ExtendAnyhow(es, s, EraseOp(0, true));
    assert DOOR_SWEEP[1..][1..] == [DropNostr, DropEnclave(false)];
  }

  lemma FirstEraseSwept() returns (es: seq<Event>, s: State)
    ensures s == Run(es)
    ensures s == Launch(CLEAN).(
      phase := Wiping, mounted := Wiping, cut := true, nextErase := 2,
      erases := map[0 := Sweeping([], false, false, false), 1 := Spawned])
  {
    es, s := FirstEraseHalfDone();
    es, s := ExtendAnyhow(es, s, EraseOp(0, true));
    assert s.erases[0].todo == [DropEnclave(false)];
    es, s := ExtendAnyhow(es, s, EraseOp(0, true));
    assert s.erases[0].todo == [];
  }

  lemma FirstEraseDone() returns (es: seq<Event>, s: State)
    ensures s == Run(es)
    ensures s == Launch(CLEAN).(
      phase := Onboarding, mounted := Wiping, nextErase := 2, erases := map[0 := Ended, 1 := Spawned])
  {
    es, s := FirstEraseSwept();
    es, s := ExtendAnyhow(es, s, EraseVerify(0, true));
  }

  /** Onboarding without the terms, begun, and then the second erase runs into a failing gate. */
  lemma SecondEraseFailed() returns (es: seq<Event>, s: State)
    ensures s == Run(es)
    ensures s == Launch(CLEAN).(
      phase := BootFailed(IdentityUnreadable), mounted := Wiping, tapped := true, pending := 1,
      nextErase := 2, erases := map[0 := Ended, 1 := Ended])
  {
    es, s := FirstEraseDone();
    es, s := ExtendAnyhow(es, s, Render);
    es, s := ExtendAnyhow(es, s, TapBegin);
    es, s := ExtendAnyhow(es, s, EraseBegin(1));
    es, s := ExtendAnyhow(es, s, Render);
    es, s := ExtendAnyhow(es, s, EraseGate(1, false));
  }

  lemma TermsShown() returns (es: seq<Event>, s: State)
    ensures s == Run(es)
    ensures s == Launch(CLEAN).(
      phase := Eula(ToOnboarding), mounted := Eula(ToOnboarding), tapped := true, pending := 1,
      nextErase := 2, erases := map[0 := Ended, 1 := Ended])
  {
    es, s := SecondEraseFailed();
    es, s := ExtendAnyhow(es, s, Render);
    es, s := ExtendAnyhow(es, s, Bootstrap(ALL_WELL));
    es, s := ExtendAnyhow(es, s, Render);
  }

  /** The generation lands while the terms for onboarding are shown; accepting them shows onboarding over an identity. */
  lemma StaleTermsBreakTruth() returns (es: seq<Event>)
    ensures Run(es).phase.Onboarding? && Run(es).world.identity == Some(1)
  {
    var s;
    es, s := TermsShown();
    es, s := ExtendAnyhow(es, s, Complete(1, true, true, ALL_WELL));
    es, s := ExtendAnyhow(es, s, AcceptEula);
  }
}
