/** Where boots, onboardings and erases end, over every run of the boot machine and on what each step answered. */
module BootOutcomes {
  import opened Wrappers
  import opened BootRouter
  import opened BootMachine

  lemma RunTo(es: seq<Event>, s: State, e: Event, s': State)
    requires s == Run(es) && Step(s, e) == s'
    ensures Run(es + [e]) == s'
  {
    assert (es + [e])[..|es|] == es;
  }

  // ----- Where an erase ends -----

  /** What the deletions of erase `k` answered, in order. */
  ghost function Answers(es: seq<Event>, k: nat): seq<bool> {
    if es == [] then []
    else
      var front, e := es[..|es| - 1], es[|es| - 1];
      Answers(front, k) + (if Deletes(Run(front), e, k) then [e.ok] else [])
  }

  predicate Deletes(s: State, e: Event, k: nat) {
    e.EraseOp? && e.k == k && k in s.erases && s.erases[k].Sweeping? && s.erases[k].todo != []
  }

  /** Some deletion but the very last failed. */
  predicate SomeFailed(o: seq<bool>, size: nat) {
    exists i :: 0 <= i < |o| && i < size - 1 && !o[i]
  }

  function Size(full: bool): nat { if full then 12 else 4 }

  lemma ProgramIs(full: bool)
    ensures |Program(full)| == Size(full)
    ensures forall i :: 0 <= i < Size(full) ==> (Program(full)[i] == DropEnclave(false) <==> i == Size(full) - 1)
  {
  }

  /** A sweep has worked off as much of its program as has answered, and noted the failures. */
  ghost predicate Answered(s: State, k: nat, o: seq<bool>) {
    && (k in s.erases && s.erases[k].Sweeping? ==>
          var e := s.erases[k];
          && |o| <= Size(e.full) && e.todo == Program(e.full)[|o|..]
          && (e.failed <==> SomeFailed(o, Size(e.full))))
    && (k in s.erases && !s.erases[k].Sweeping? && !s.erases[k].Ended? ==> o == [])
    && (k in s.erases ==> k < s.nextErase)
    && (k >= s.nextErase ==> o == [])
  }

  lemma SomeFailedSnoc(o: seq<bool>, ok: bool, size: nat)
    ensures SomeFailed(o + [ok], size) <==> SomeFailed(o, size) || (!ok && |o| < size - 1)
  {
    if !ok && |o| < size - 1 {
      assert !(o + [ok])[|o|];
    }
    if SomeFailed(o, size) {
      var i :| 0 <= i < |o| && i < size - 1 && !o[i];
      assert !(o + [ok])[i];
    }
  }

  lemma DeletionAnswered(s: State, k: nat, ok: bool, o: seq<bool>)
    requires Answered(s, k, o) && Deletes(s, EraseOp(k, ok), k)
    ensures Answered(Step(s, EraseOp(k, ok)), k, o + [ok])
  {
    var full := s.erases[k].full;
    ProgramIs(full);
    DeletionStep(s, k, ok);
    SomeFailedSnoc(o, ok, Size(full));
    assert s.erases[k].todo[0] == Program(full)[|o|];
  }

  /** A step of another kind leaves erase `k` alone, moves it before its sweep, or ends it. */
  ghost predicate Alone(s: State, s': State, k: nat) {
    && s'.nextErase == s.nextErase && (k in s'.erases <==> k in s.erases)
    && (k in s.erases && s'.erases[k] != s.erases[k] ==>
          || s'.erases[k].Ended? || (s.erases[k].Spawned? && s'.erases[k].Waiting?)
          || (s.erases[k].Resumed? && s'.erases[k] == Sweeping(Program(s.assembled), false, s.assembled, s.world.contactStores)))
  }

  lemma GateAlone(s: State, j: nat, ok: bool, k: nat)
    requires j in s.erases && s.erases[j].Resumed?
    ensures Alone(s, GateStep(s, j, ok), k)
  {
  }

  lemma OpAlone(s: State, j: nat, ok: bool, k: nat)
    requires j != k
    ensures Alone(s, Step(s, EraseOp(j, ok)), k)
  {
  }

  lemma VerifyAlone(s: State, j: nat, resolvable: bool, k: nat)
    ensures Alone(s, Step(s, EraseVerify(j, resolvable)), k)
  {
  }

  lemma SweepAlone(s: State, e: Event, k: nat)
    requires !Deletes(s, e, k) && (e.EraseBegin? || e.EraseGate? || e.EraseOp? || e.EraseVerify?)
    ensures Alone(s, Step(s, e), k)
  {
    match e
    case EraseGate(j, ok) =>
      if j in s.erases && s.erases[j].Resumed? {
        GateAlone(s, j, ok, k);
      }
    case EraseOp(j, ok) =>
      if j != k {
        OpAlone(s, j, ok, k);
      }
    case EraseVerify(j, resolvable) => VerifyAlone(s, j, resolvable, k);
    case _ =>
  }

  lemma SweepAnswered(s: State, e: Event, k: nat, o: seq<bool>)
    requires Answered(s, k, o) && !Deletes(s, e, k) && (e.EraseBegin? || e.EraseGate? || e.EraseOp? || e.EraseVerify?)
    ensures Answered(Step(s, e), k, o)
  {
    SweepAlone(s, e, k);
    ProgramIs(s.assembled);
  }

  lemma RenderAnswered(s: State, k: nat, o: seq<bool>)
    requires Answered(s, k, o) && (s.waiter.Some? ==> s.waiter.value in s.erases && s.erases[s.waiter.value].Waiting?)
    ensures Answered(RenderStep(s), k, o)
  {
  }

  lemma OtherAnswered(s: State, e: Event, k: nat, o: seq<bool>)
    requires Answered(s, k, o) && !e.Render? && !(e.EraseBegin? || e.EraseGate? || e.EraseOp? || e.EraseVerify?)
    ensures Answered(Step(s, e), k, o)
  {
    if e.Complete? && s.pending > 0 {
      CompleteLeavesErases(s.(pending := s.pending - 1), e.identity, e.wrapped, e.saveOk, e.boot);
    }
  }

  lemma StepAnswered(s: State, e: Event, k: nat, o: seq<bool>)
    requires Answered(s, k, o) && WaiterOk(s)
    ensures Answered(Step(s, e), k, if Deletes(s, e, k) then o + [e.ok] else o)
  {
    if Deletes(s, e, k) {
      DeletionAnswered(s, k, e.ok, o);
    } else if e.EraseBegin? || e.EraseGate? || e.EraseOp? || e.EraseVerify? {
      SweepAnswered(s, e, k, o);
    } else if e.Render? {
      RenderAnswered(s, k, o);
    } else {
      OtherAnswered(s, e, k, o);
    }
  }

  lemma {:induction false} RunAnswered(es: seq<Event>, k: nat)
    ensures Answered(Run(es), k, Answers(es, k))
  {
    if es != [] {
      var front, e := es[..|es| - 1], es[|es| - 1];
      var s, o := Run(front), Answers(front, k);
      RunAnswered(front, k);
      WaiterKeeps(front);
      StepAnswered(s, e, k, o);
      assert Answers(es, k) == if Deletes(s, e, k) then o + [e.ok] else o;
    }
  }

  /**
   Over every run, an erase whose deletions have all answered shows onboarding exactly if
   none of them but the closing Enclave teardown failed, the store's location resolves and
   no store file is there; otherwise it shows the door. With the assembled wipe it made 12
   deletions, and without it 4.
   */
  lemma EraseRoutesExactly(es: seq<Event>, k: nat, resolvable: bool)
    requires k in Run(es).erases && Run(es).erases[k].Sweeping? && Run(es).erases[k].todo == []
    ensures var s, o := Run(es), Answers(es, k);
      && |o| == (if s.erases[k].full then 12 else 4)
      && Run(es + [EraseVerify(k, resolvable)]).phase ==
        if (forall i :: 0 <= i < |o| - 1 ==> o[i]) && resolvable && !s.world.storeFiles
        then Onboarding else BootFailed(IdentityUnreadable)
  {
    var s, o := Run(es), Answers(es, k);
    RunAnswered(es, k);
    ProgramIs(s.erases[k].full);
    RunTo(es, s, EraseVerify(k, resolvable), Step(s, EraseVerify(k, resolvable)));
    assert SomeFailed(o, |o|) <==> exists i :: 0 <= i < |o| && i < |o| - 1 && !o[i];
  }

  // ----- An erase nothing disturbs -----

  /** The first `n` deletions of erase `k`, answering as listed. */
  function Deletions(k: nat, o: seq<bool>, n: nat): seq<Event>
    requires n <= |o|
  {
    if n == 0 then [] else Deletions(k, o, n - 1) + [EraseOp(k, o[n - 1])]
  }

  ghost function Sweep(s: State, k: nat, o: seq<bool>, n: nat): State
    requires n <= |o|
  {
    if n == 0 then s else Step(Sweep(s, k, o, n - 1), EraseOp(k, o[n - 1]))
  }

  lemma {:induction false} RunSweep(es: seq<Event>, k: nat, o: seq<bool>, n: nat)
    requires n <= |o|
    ensures Run(es + Deletions(k, o, n)) == Sweep(Run(es), k, o, n)
  {
    if n == 0 {
      assert es + [] == es;
    } else {
      var before, e := es + Deletions(k, o, n - 1), EraseOp(k, o[n - 1]);
      RunSweep(es, k, o, n - 1);
      RunTo(before, Run(before), e, Step(Run(before), e));
      assert before + [e] == es + Deletions(k, o, n);
    }
  }

  /** One deletion: the next operation is applied or not, and leaves the list. */
  lemma DeletionStep(s: State, k: nat, ok: bool)
    requires Deletes(s, EraseOp(k, ok), k)
    ensures var s', e := Step(s, EraseOp(k, ok)), s.erases[k];
      && k in s'.erases && s'.erases[k].Sweeping? && s'.erases[k].full == e.full && s'.erases[k].todo == e.todo[1..]
      && s'.erases[k].failed == (e.failed || (!ok && e.todo[0] != DropEnclave(false)))
      && s'.nextErase == s.nextErase
      && s'.world.storeFiles == (s.world.storeFiles && !(ok && e.todo[0] == DropStore))
  {
  }

  /** The sweep after its first `n` deletions. */
  ghost predicate SweptSoFar(s: State, k: nat, full: bool, o: seq<bool>, n: nat)
    requires n <= |o| == Size(full)
  {
    && k in s.erases && s.erases[k].Sweeping? && s.erases[k].full == full
    && s.erases[k].todo == Program(full)[n..]
    && (s.erases[k].failed <==> SomeFailed(o[..n], Size(full)))
    && (n > Size(full) - 4 && o[Size(full) - 4] ==> !s.world.storeFiles)
  }

  lemma SweepsOn(s: State, k: nat, full: bool, o: seq<bool>, n: nat)
    requires n < |o| == Size(full) && SweptSoFar(s, k, full, o, n)
    ensures SweptSoFar(Step(s, EraseOp(k, o[n])), k, full, o, n + 1)
  {
    ProgramIs(full);
    DeletionStep(s, k, o[n]);
    SomeFailedSnoc(o[..n], o[n], Size(full));
    assert o[..n] + [o[n]] == o[..n + 1];
    assert s.erases[k].todo[0] == Program(full)[n];
  }

  lemma {:induction false} SweepWorks(s: State, k: nat, full: bool, o: seq<bool>, n: nat)
    requires n <= |o| == Size(full) && SweptSoFar(s, k, full, o, 0)
    ensures SweptSoFar(Sweep(s, k, o, n), k, full, o, n)
  {
    if n > 0 {
      SweepWorks(s, k, full, o, n - 1);
      SweepsOn(Sweep(s, k, o, n - 1), k, full, o, n - 1);
    }
  }

  /** All deletions made: the verdict. */
  lemma SweepRoutes(s: State, k: nat, full: bool, o: seq<bool>, resolvable: bool)
    requires |o| == Size(full) && SweptSoFar(s, k, full, o, |o|)
    ensures Step(s, EraseVerify(k, resolvable)).phase ==
      if (forall i :: 0 <= i < |o| - 1 ==> o[i]) && resolvable then Onboarding else BootFailed(IdentityUnreadable)
  {
    ProgramIs(full);
    assert o[..|o|] == o;
    assert SomeFailed(o, |o|) <==> exists i :: 0 <= i < |o| && i < |o| - 1 && !o[i];
  }

  /** Tapped, begun, rendered, its gate answered. */
  function Begun(k: nat, gate: bool): seq<Event> {
    [TapErase] + [EraseBegin(k)] + [Render] + [EraseGate(k, gate)]
  }

  lemma RunBegun(es: seq<Event>, s: State, gate: bool) returns (s': State)
    requires s == Run(es) && (s.mounted.Ready? || s.mounted.BootFailed?)
    ensures s' == Run(es + Begun(s.nextErase, gate))
    ensures gate ==> forall o :: |o| == Size(s.assembled) ==> SweptSoFar(s', s.nextErase, s.assembled, o, 0)
    ensures !gate ==> 
      s'.phase == BootFailed(IdentityUnreadable) && s'.world == s.world && s.nextErase in s'.erases && s'.erases[s.nextErase].Ended?
  {
    var k := s.nextErase;
    var s1 := s.(erases := s.erases[k := Spawned], nextErase := k + 1);
    RunTo(es, s, TapErase, s1);
    var s3 := RunResumed(es + [TapErase], s1, k);
    var before := es + [TapErase] + [EraseBegin(k)] + [Render];
    s' := Step(s3, EraseGate(k, gate));
    RunTo(before, s3, EraseGate(k, gate), s');
    assert before + [EraseGate(k, gate)] == es + Begun(k, gate);
    GateAnswers(s3, k, gate);
  }

  /** The barrier armed, then the wiping arm on screen. */
  lemma RunResumed(es: seq<Event>, s: State, k: nat) returns (s': State)
    requires s == Run(es) && k in s.erases && s.erases[k].Spawned? && !s.mounted.Wiping?
    ensures s' == Run(es + [EraseBegin(k)] + [Render])
    ensures k in s'.erases && s'.erases[k].Resumed? && s'.world == s.world && s'.assembled == s.assembled
  {
    var s2 := s.(erases := s.erases[k := Waiting], waiter := Some(k), phase := Wiping);
    RunTo(es, s, EraseBegin(k), s2);
    s' := s2.(erases := s2.erases[k := Resumed], waiter := None, mounted := Wiping);
    RunTo(es + [EraseBegin(k)], s2, Render, s');
  }

  lemma GateAnswers(s: State, k: nat, ok: bool)
    requires k in s.erases && s.erases[k].Resumed?
    ensures var s' := Step(s, EraseGate(k, ok));
      && (ok ==> forall o :: |o| == Size(s.assembled) ==> SweptSoFar(s', k, s.assembled, o, 0))
      && (!ok ==> s'.phase == BootFailed(IdentityUnreadable) && s'.world == s.world && k in s'.erases && s'.erases[k].Ended?)
  {
    ProgramIs(s.assembled);
  }

  /**
   An erase nothing disturbs, tapped on the ready screen or at the door in any run: onboarding
   exactly if its gate and every deletion but the closing Enclave teardown went well and the
   store's location resolves, and otherwise the door.
   */
  lemma UndisturbedErase(es: seq<Event>, gate: bool, o: seq<bool>, resolvable: bool) returns (end: seq<Event>)
    requires var s := Run(es);
      (s.mounted.Ready? || s.mounted.BootFailed?) && |o| == (if s.assembled then 12 else 4)
    ensures var k := Run(es).nextErase;
      end == es + Begun(k, gate) + Deletions(k, o, |o|) + [EraseVerify(k, resolvable)]
    ensures Run(end).phase ==
      if gate && (forall i :: 0 <= i < |o| - 1 ==> o[i]) && resolvable then Onboarding else BootFailed(IdentityUnreadable)
    ensures !gate ==> Run(end).world == Run(es).world
  {
    var s := Run(es);
    var k := s.nextErase;
    var s1 := RunBegun(es, s, gate);
    var begun := es + Begun(k, gate);
    end := begun + Deletions(k, o, |o|) + [EraseVerify(k, resolvable)];
    RunSweep(begun, k, o, |o|);
    var s2 := Sweep(s1, k, o, |o|);
    if gate {
      SweepWorks(s1, k, s.assembled, o, |o|);
      SweepRoutes(s2, k, s.assembled, o, resolvable);
    } else {
      EndedIgnores(s1, k, o, |o|);
    }
    RunTo(begun + Deletions(k, o, |o|), s2, EraseVerify(k, resolvable), Step(s2, EraseVerify(k, resolvable)));
  }

  lemma {:induction false} EndedIgnores(s: State, k: nat, o: seq<bool>, n: nat)
    requires k in s.erases && s.erases[k].Ended? && n <= |o|
    ensures Sweep(s, k, o, n) == s
  {
    if n > 0 {
      EndedIgnores(s, k, o, n - 1);
    }
  }

  // ----- What a boot shows -----

  /** The screen a boot of this world leads to; terms once accepted are never asked again. */
  ghost predicate Shows(phase: Phase, w: World, boot: Boot) {
    && (!boot.readable ==> phase == BootFailed(IdentityUnreadable))
    && (boot.readable && w.identity.None? ==> phase == if w.eulaAccepted then Onboarding else Eula(ToOnboarding))
    && (boot.readable && w.identity.Some? ==>
          phase == if !boot.containerOk || !boot.stackOk then BootFailed(StackFailed)
                   else if w.eulaAccepted then Ready(w.identity.value) else Eula(ToReady(w.identity.value, ())))
  }

  /** A boot, at launch or behind the door's "Try again". */
  lemma BootShows(s: State, boot: Boot)
    requires s.mounted.Launching? || s.mounted.BootFailed?
    ensures Shows(Step(s, Bootstrap(boot)).phase, s.world, boot)
  {
  }

  /** A relaunch keeps the whole world; a reinstall keeps the Keychain and asks for the terms again. */
  lemma RelaunchShows(s: State, boot: Boot)
    ensures Shows(Step(Step(s, Relaunch), Bootstrap(boot)).phase, s.world, boot)
    ensures Shows(Step(Step(s, Reinstall), Bootstrap(boot)).phase, s.world.(eulaAccepted := false), boot)
  {
    BootShows(Step(s, Relaunch), boot);
    BootShows(Step(s, Reinstall), boot);
  }

  // ----- Onboarding -----

  /** The first screens of a device without an identity, terms accepted if they are asked for. */
  function Welcome(boot: Boot, asked: bool): seq<Event> {
    [Bootstrap(boot)] + [Render] + (if asked then [AcceptEula] + [Render] else [])
  }

  lemma RunWelcome(es: seq<Event>, s: State, boot: Boot) returns (s': State)
    requires s == Run(es) && s.mounted.Launching? && !s.tapped && s.world.identity.None? && boot.readable
    ensures s' == Run(es + Welcome(boot, !s.world.eulaAccepted))
    ensures s' == s.(world := s.world.(eulaAccepted := true), phase := Onboarding, mounted := Onboarding)
  {
    var asked := !s.world.eulaAccepted;
    var first := if asked then Eula(ToOnboarding) else Onboarding;
    BootShows(s, boot);
    var s1 := s.(phase := first);
    RunTo(es, s, Bootstrap(boot), s1);
    var s2 := s1.(mounted := first);
    FirstRender(s1);
    RunTo(es + [Bootstrap(boot)], s1, Render, s2);
    if asked {
      s' := RunAccepts(es + [Bootstrap(boot)] + [Render], s2);
      assert es + [Bootstrap(boot)] + [Render] + [AcceptEula] + [Render] == es + Welcome(boot, true);
    } else {
      s' := s2;
      assert es + [Bootstrap(boot)] + [Render] == es + Welcome(boot, false);
    }
  }

  lemma FirstRender(s: State)
    requires !s.phase.Wiping? && !s.tapped
    ensures Step(s, Render) == s.(mounted := s.phase)
  {
  }

  lemma RunAccepts(es: seq<Event>, s: State) returns (s': State)
    requires s == Run(es) && s.mounted == Eula(ToOnboarding) && !s.tapped
    ensures s' == Run(es + [AcceptEula] + [Render])
    ensures s' == s.(world := s.world.(eulaAccepted := true), phase := Onboarding, mounted := Onboarding)
  {
    var s1 := s.(world := s.world.(eulaAccepted := true), phase := Onboarding);
    RunTo(es, s, AcceptEula, s1);
    FirstRender(s1);
    s' := s1.(mounted := Onboarding);
    RunTo(es + [AcceptEula], s1, Render, s');
  }

  /**
   Onboarding from any launch without an identity: a failed save leaves the device without
   one; a successful one keeps it, and the app is ready exactly if the identity reads back
   and the stack comes up around it.
   */
  lemma OnboardingReachesReady(es: seq<Event>, first: Boot, identity: Identity, wrapped: bool, saveOk: bool, boot: Boot)
    returns (end: seq<Event>)
    requires var s := Run(es); s.mounted.Launching? && !s.tapped && s.pending == 0 && s.world.identity.None? && first.readable
    ensures end == es + Welcome(first, !Run(es).world.eulaAccepted) + [TapBegin] + [Complete(identity, wrapped, saveOk, boot)]
    ensures var s' := Run(end);
      && s'.world.identity == (if saveOk then Some(identity) else None)
      && s'.phase ==
        if !saveOk then Onboarding
        else if !boot.readable then BootFailed(IdentityUnreadable)
        else if boot.containerOk && boot.stackOk then Ready(identity)
        else BootFailed(StackFailed)
  {
    var s := Run(es);
    var s1 := RunWelcome(es, s, first);
    var begun := es + Welcome(first, !s.world.eulaAccepted);
    var s2 := s1.(tapped := true, pending := 1);
    RunTo(begun, s1, TapBegin, s2);
    var e := Complete(identity, wrapped, saveOk, boot);
    end := begun + [TapBegin] + [e];
    RunTo(begun + [TapBegin], s2, e, Step(s2, e));
    Completes(s2, identity, wrapped, saveOk, boot);
  }

  lemma Completes(s: State, identity: Identity, wrapped: bool, saveOk: bool, boot: Boot)
    requires s.pending == 1 && s.world.identity.None? && s.world.eulaAccepted && s.phase.Onboarding?
    ensures var s' := Step(s, Complete(identity, wrapped, saveOk, boot));
      && s'.world.identity == (if saveOk then Some(identity) else None)
      && s'.phase ==
        if !saveOk then Onboarding
        else if !boot.readable then BootFailed(IdentityUnreadable)
        else if boot.containerOk && boot.stackOk then Ready(identity)
        else BootFailed(StackFailed)
  {
  }

  // ----- The ready screen -----

  predicate ShowsReady(p: Phase) { p.Ready? || (p.Eula? && p.route.ToReady?) }

  /** The ready screen, or terms held before it, comes with the assembled wipe; the screen itself with accepted terms. */
  predicate ReadyFounded(s: State) {
    && (ShowsReady(s.phase) || ShowsReady(s.mounted) ==> s.assembled)
    && (s.phase.Ready? || s.mounted.Ready? ==> s.world.eulaAccepted)
  }

  lemma BootFounded(s: State, boot: Boot)
    requires ReadyFounded(s)
    ensures ReadyFounded(BootstrapStep(s, boot))
  {
  }

  lemma UnsavedFounded(s: State, identity: Identity, wrapped: bool, saveOk: bool, boot: Boot)
    requires ReadyFounded(s) && (!saveOk || s.world.identity.Some?)
    ensures ReadyFounded(CompleteStep(s, identity, wrapped, saveOk, boot))
  {
  }

  lemma SavedFounded(s: State, identity: Identity, boot: Boot)
    requires ReadyFounded(s)
    ensures ReadyFounded(BootstrapStep(Saved(s, identity), boot))
  {
    assert ReadyFounded(Saved(s, identity));
    BootFounded(Saved(s, identity), boot);
  }

  lemma CompleteFounded(s: State, identity: Identity, wrapped: bool, saveOk: bool, boot: Boot)
    requires ReadyFounded(s)
    ensures ReadyFounded(CompleteStep(s, identity, wrapped, saveOk, boot))
  {
    if !saveOk || s.world.identity.Some? {
      UnsavedFounded(s, identity, wrapped, saveOk, boot);
    } else {
      SavedFounded(s, identity, boot);
    }
  }

  lemma SweepFounded(s: State, e: Event)
    requires ReadyFounded(s) && (e.EraseGate? || e.EraseOp? || e.EraseVerify?)
    ensures ReadyFounded(Step(s, e))
  {
  }

  lemma StepFounded(s: State, e: Event)
    requires ReadyFounded(s)
    ensures ReadyFounded(Step(s, e))
  {
    if e.Bootstrap? {
      BootFounded(s, e.boot);
    } else if e.Complete? {
      if s.pending > 0 {
        CompleteFounded(s.(pending := s.pending - 1), e.identity, e.wrapped, e.saveOk, e.boot);
      }
    } else if e.EraseGate? || e.EraseOp? || e.EraseVerify? {
      SweepFounded(s, e);
    }
  }

  lemma {:induction false} RunFounded(es: seq<Event>)
    ensures ReadyFounded(Run(es))
  {
    if es != [] {
      RunFounded(es[..|es| - 1]);
      StepFounded(Run(es[..|es| - 1]), es[|es| - 1]);
    }
  }

  /** Only accepting the terms accepts them. */
  lemma TermsStep(s: State, e: Event)
    requires !s.world.eulaAccepted && Step(s, e).world.eulaAccepted
    ensures e == AcceptEula
  {
    if e.Complete? && s.pending > 0 {
      CompleteKeepsTerms(s.(pending := s.pending - 1), e.identity, e.wrapped, e.saveOk, e.boot);
    } else if e.EraseVerify? || e.EraseBegin? {
      QuietKeepsWorld(s, e);
    }
  }

  lemma BootKeepsTerms(s: State, boot: Boot)
    ensures BootstrapStep(s, boot).world.eulaAccepted == s.world.eulaAccepted
  {
  }

  lemma CompleteKeepsTerms(s: State, identity: Identity, wrapped: bool, saveOk: bool, boot: Boot)
    ensures CompleteStep(s, identity, wrapped, saveOk, boot).world.eulaAccepted == s.world.eulaAccepted
  {
    BootKeepsTerms(Saved(s, identity), boot);
  }

  lemma {:induction false} AcceptedOnce(es: seq<Event>)
    requires Run(es).world.eulaAccepted
    ensures AcceptEula in es
  {
    if es != [] {
      var front := es[..|es| - 1];
      if Run(front).world.eulaAccepted {
        AcceptedOnce(front);
      } else {
        TermsStep(Run(front), es[|es| - 1]);
      }
    }
  }

  /** Over every run: the ready screen is shown only after the terms were accepted, and its erase includes the assembled wipe. */
  lemma ReadyNeedsTerms(es: seq<Event>)
    requires Run(es).phase.Ready? || Run(es).mounted.Ready?
    ensures AcceptEula in es && Run(es).world.eulaAccepted && Run(es).assembled
  {
    RunFounded(es);
    AcceptedOnce(es);
  }

  /** From any state: onboarding is entered without accepted terms exactly by an erase that ends well before they were. */
  lemma OnboardingWithoutTermsExactly(s: State, e: Event)
    requires !s.phase.Onboarding?
    ensures var s' := Step(s, e);
      s'.phase.Onboarding? && !s'.world.eulaAccepted <==> e.EraseVerify? && s'.phase.Onboarding? && !s.world.eulaAccepted
  {
    if e.Complete? && s.pending > 0 {
      CompleteAvoidsOnboarding(s.(pending := s.pending - 1), e.identity, e.wrapped, e.saveOk, e.boot);
    }
  }

  lemma {:induction false} DeletionsAcceptNothing(k: nat, o: seq<bool>, n: nat)
    requires n <= |o|
    ensures AcceptEula !in Deletions(k, o, n)
  {
    if n > 0 {
      DeletionsAcceptNothing(k, o, n - 1);
    }
  }

  /** A first boot that cannot read the Keychain, erased from the door: onboarding, and no terms were accepted. */
  lemma DoorEraseSkipsTerms() returns (es: seq<Event>)
    ensures Run(es).phase.Onboarding? && AcceptEula !in es && !Run(es).world.eulaAccepted
  {
    var s1 := Launch(CLEAN).(phase := BootFailed(IdentityUnreadable));
    RunTo([], Launch(CLEAN), Bootstrap(LOCKED), s1);
    assert [] + [Bootstrap(LOCKED)] == [Bootstrap(LOCKED)];
    RunTo([Bootstrap(LOCKED)], s1, Render, s1.(mounted := s1.phase));
    var o := [true, true, true, true];
    es := UndisturbedErase([Bootstrap(LOCKED)] + [Render], true, o, true);
    DeletionsAcceptNothing(0, o, 4);
    if Run(es).world.eulaAccepted {
      AcceptedOnce(es);
    }
  }


  // ----- Terms, tripwire, and onboarding once more -----

  /** Accepting the terms shows what they were held before. */
  lemma AcceptShows(s: State)
    requires s.mounted.Eula?
    ensures var s' := Step(s, AcceptEula);
      && s'.world == s.world.(eulaAccepted := true)
      && s'.phase ==
        match s.mounted.route
        case ToOnboarding => Onboarding
        case ToReady(identity, _) => Ready(identity)
        case ToBootFailed(failure) => BootFailed(failure)
  {
  }

  /** A generated identity that meets another is dropped at the door; the other stays. */
  lemma TripwireShowsDoor(s: State, e: Event)
    requires TripwireFires(s, e)
    ensures var s' := Step(s, e);
      s'.phase == BootFailed(IdentityUnreadable) && s'.world.identity == s.world.identity && s'.pending == s.pending - 1
  {
  }

  /** Nothing but what a stack build makes is new, and nothing is gone. */
  ghost predicate Grows(w: World, w': World) {
    && w'.identity == w.identity && w'.eulaAccepted == w.eulaAccepted && w'.enclaveKey == w.enclaveKey
    && (w.storeFiles ==> w'.storeFiles) && (w.sessionKey ==> w'.sessionKey)
    && (w.nostrSecret ==> w'.nostrSecret) && (w.contactStores ==> w'.contactStores)
  }

  lemma StackLeaves(s: State, boot: Boot)
    ensures var w' := Provision(s, boot).world;
      Grows(s.world, w') && (boot.containerOk && boot.stackOk ==> w'.storeFiles && w'.sessionKey && w'.contactStores)
  {
  }

  /** A boot that builds the stack leaves a store, its key and the contact stores; without an identity to read it leaves all as it is. */
  lemma BootLeaves(s: State, boot: Boot)
    requires s.mounted.Launching? || s.mounted.BootFailed?
    ensures var w' := Step(s, Bootstrap(boot)).world;
      if boot.readable && s.world.identity.Some?
      then Grows(s.world, w') && (boot.containerOk && boot.stackOk ==> w'.storeFiles && w'.sessionKey && w'.contactStores)
      else w' == s.world
  {
    StackLeaves(s, boot);
    assert Step(s, Bootstrap(boot)).world == if boot.readable && s.world.identity.Some? then Provision(s, boot).world else s.world;
  }

  /** Onboarding entered again, after an erase say, is a new view: a tap and a saved identity boot it as ever. */
  lemma OnboardingAgain(s: State, identity: Identity, wrapped: bool, boot: Boot)
    requires s.phase.Onboarding? && !s.mounted.Onboarding? && s.world.identity.None?
    ensures var s1 := Step(Step(s, Render), TapBegin);
      && s1.tapped && s1.pending == s.pending + 1
      && var s' := Step(s1, Complete(identity, wrapped, true, boot));
        s'.world.identity == Some(identity) && Shows(s'.phase, s.world.(identity := Some(identity)), boot)
  {
    var s1 := s.(mounted := Onboarding, tapped := true, pending := s.pending + 1);
    assert Step(Step(s, Render), TapBegin) == s1;
    Boots(s1, identity, wrapped, boot);
  }

  lemma Boots(s: State, identity: Identity, wrapped: bool, boot: Boot)
    requires s.pending > 0 && s.world.identity.None?
    ensures var s' := Step(s, Complete(identity, wrapped, true, boot));
      s'.world.identity == Some(identity) && Shows(s'.phase, s.world.(identity := Some(identity)), boot)
  {
  }
}
