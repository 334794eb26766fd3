/**
 The imperative form of the boot machine: the root view's state updated in place by
 `bootstrap`, `enter`, `completeOnboarding` and the segments of `eraseEverything`.
 Each method is proved to take exactly the machine's step.
 */
module ContentViewModel {
  import opened Wrappers
  import opened BootRouter
  import opened BootMachine

  /** One of the first `n` deletions failed, not counting the closing Enclave teardown. */
  ghost predicate GatingFailure(todo: seq<Op>, outcome: seq<bool>, n: nat)
    requires n <= |todo| && n <= |outcome|
  {
    exists i :: 0 <= i < n && !outcome[i] && todo[i] != DropEnclave(false)
  }

  lemma FailureStep(todo: seq<Op>, outcome: seq<bool>, n: nat)
    requires n < |todo| && n < |outcome|
    ensures GatingFailure(todo, outcome, n + 1) <==>
      GatingFailure(todo, outcome, n) || (!outcome[n] && todo[n] != DropEnclave(false))
  {
  }

  class ContentView {
    /** Keychain and disk. */
    var world: World
    var phase: Phase
    var mounted: Phase
    var isGenerating: bool
    /** Generation tasks still running. */
    var generations: nat
    var wipingAppeared: Option<nat>
    var erases: map<nat, Erase>
    var nextErase: nat
    /** `emergencyWipe != nil`. */
    var assembled: bool
    var handles: bool
    ghost var cut: bool
    ghost var late: bool
    /** Everything that has happened on this device so far. */
    ghost var trace: seq<Event>

    ghost function View(): State
      reads this
    {
      State(world, phase, mounted, isGenerating, generations, wipingAppeared, erases, nextErase,
            assembled, handles, cut, late)
    }

    /** The view is where the machine is after the trace. */
    ghost predicate Valid()
      reads this
    {
      View() == Run(trace)
    }

    /** What the machine promises, of this view, on a trace without a clash. */
    ghost predicate Safe()
      reads this
    {
      && (NoClash(trace) ==> PhaseTrue(phase, world) && OnePastBarrier(View()))
      && (NoneBeginsAgain(trace) ==> Unclobbered(View()))
    }

    /** A process start on a device with a history. */
    constructor (world: World, firstErase: nat, ghost history: seq<Event>)
      requires var s := Run(history);
        s == Launch(world).(nextErase := firstErase, cut := s.cut, late := s.late)
      ensures Valid() && Safe() && trace == history
    {
      this.world := world;
      phase, mounted := Launching, Launching;
      isGenerating, generations := false, 0;
      wipingAppeared, erases, nextErase := None, map[], firstErase;
      assembled, handles, cut, late := false, false, Run(history).cut, Run(history).late;
      trace := history;
      new;
      Promises(history);
    }

    /** Notes the step that has just been taken. */
    ghost method Record(before: State, e: Event)
      requires before == Run(trace) && View() == Step(before, e)
      modifies this`trace
      ensures trace == old(trace) + [e] && Valid() && Safe()
    {
      var es, s := ExtendAnyhow(trace, before, e);
      trace := es;
      Promises(es);
    }

    lemma Promises(es: seq<Event>)
      ensures NoClash(es) ==> PhaseTrue(Run(es).phase, Run(es).world) && OnePastBarrier(Run(es))
      ensures NoneBeginsAgain(es) ==> Unclobbered(Run(es))
    {
      if NoClash(es) {
        RunKeeps(es);
      }
      UnclobberedExactly(es);
    }

    method EnterRoute(route: Route)
      modifies this`phase
      ensures phase == Enter(route)
    {
      match route
      case ToOnboarding => phase := Onboarding;
      case ToBootFailed(failure) => phase := BootFailed(failure);
      case ToReady(identity, _) => phase := Ready(identity);
    }

    /** `makeModelContainer` then `makeSessionStack`, as far as they get. */
    method MakeStack(boot: Boot) returns (built: Result<(), ()>)
      modifies this`world, this`assembled, this`handles
      ensures View() == Provision(old(View()), boot)
      ensures built == BuildStack(boot)(0)
    {
      if !boot.containerOk {
        world := world.(storeFiles := world.storeFiles || boot.filesTouched);
        return Err(());
      }
      world := world.(storeFiles := true);
      handles := true;
      world := world.(sessionKey := world.sessionKey || boot.keyMade,
                      nostrSecret := world.nostrSecret || boot.nostrMade,
                      contactStores := world.contactStores || boot.contactsMade);
      if !boot.stackOk {
        return Err(());
      }
      world := world.(sessionKey := true, contactStores := true);
      assembled := true;
      return Ok(());
    }

    method RunBootstrap(boot: Boot)
      modifies this`world, this`assembled, this`handles, this`phase
      ensures View() == BootstrapStep(old(View()), boot)
    {
      var accepted := world.eulaAccepted;
      var route: Route;
      if !boot.readable {
        route := ToBootFailed(IdentityUnreadable);
      } else if world.identity.None? {
        route := ToOnboarding;
      } else {
        var identity := world.identity.value;
        var built := MakeStack(boot);
        route := if built.Ok? then ToReady(identity, ()) else ToBootFailed(StackFailed);
      }
      if route.ToBootFailed? || accepted {
        EnterRoute(route);
      } else {
        phase := Eula(route);
      }
    }

    /** `bootstrap` at launch, and behind the door's "Try again". */
    method Boot(boot: Boot)
      requires Valid() && (mounted.Launching? || mounted.BootFailed?)
      modifies this
      ensures View() == Step(old(View()), Bootstrap(boot))
      ensures trace == old(trace) + [Bootstrap(boot)] && Valid() && Safe()
    {
      ghost var before := View();
      RunBootstrap(boot);
      Record(before, Bootstrap(boot));
    }

    /** The onboarding view's tap. */
    method BeginGeneration()
      requires Valid() && mounted.Onboarding? && !isGenerating
      modifies this
      ensures View() == Step(old(View()), TapBegin)
      ensures trace == old(trace) + [TapBegin] && Valid() && Safe()
    {
      ghost var before := View();
      isGenerating, generations := true, generations + 1;
      Record(before, TapBegin);
    }

    method EulaAccepted()
      requires Valid() && mounted.Eula?
      modifies this
      ensures View() == Step(old(View()), AcceptEula)
      ensures trace == old(trace) + [AcceptEula] && Valid() && Safe()
    {
      ghost var before := View();
      EulaAcceptedSegment();
      Record(before, AcceptEula);
    }

    method EulaAcceptedSegment()
      requires mounted.Eula?
      modifies this
      ensures View() == Step(old(View()), AcceptEula)
      ensures trace == old(trace)
    {
      world := world.(eulaAccepted := true);
      EnterRoute(mounted.route);
    }

    /** Called once the onboarding view hands over a fresh identity. */
    method CompleteOnboarding(identity: Identity, wrapped: bool, saveOk: bool, boot: Boot)
      requires Valid() && generations > 0
      modifies this
      ensures View() == Step(old(View()), Complete(identity, wrapped, saveOk, boot))
      ensures trace == old(trace) + [Complete(identity, wrapped, saveOk, boot)] && Valid() && Safe()
    {
      ghost var before := View();
      CompleteOnboardingSegment(identity, wrapped, saveOk, boot);
      Record(before, Complete(identity, wrapped, saveOk, boot));
    }

    method CompleteOnboardingSegment(identity: Identity, wrapped: bool, saveOk: bool, boot: Boot)
      requires generations > 0
      modifies this
      ensures View() == Step(old(View()), Complete(identity, wrapped, saveOk, boot))
      ensures trace == old(trace)
    {
      generations := generations - 1;
      if !saveOk {
        world := world.(enclaveKey := world.enclaveKey || wrapped);
        return;
      }
      if world.identity.Some? {
        world := world.(enclaveKey := true);
        phase := BootFailed(IdentityUnreadable);
        return;
      }
      SaveIdentity(identity);
      RunBootstrap(boot);
    }

    method SaveIdentity(identity: Identity)
      modifies this`world, this`cut
      ensures View() == Saved(old(View()), identity)
    {
      world := world.(enclaveKey := true, identity := Some(identity));
      cut := false;
    }

    /** Erase tapped, on the ready screen or at the door: the work is spawned. */
    method TapEraseEverything()
      requires Valid() && (mounted.Ready? || mounted.BootFailed?)
      modifies this
      ensures View() == Step(old(View()), TapErase)
      ensures trace == old(trace) + [TapErase] && Valid() && Safe()
    {
      ghost var before := View();
      erases := erases[nextErase := Spawned];
      nextErase := nextErase + 1;
      Record(before, TapErase);
    }

    /** The erase's first segment, whenever it runs: arm the barrier, flip to the wiping arm. */
    method EraseEverything(k: nat)
      requires Valid() && k in erases && erases[k].Spawned?
      modifies this
      ensures View() == Step(old(View()), EraseBegin(k))
      ensures trace == old(trace) + [EraseBegin(k)] && Valid() && Safe()
    {
      ghost var before := View();
      erases := erases[k := Waiting];
      wipingAppeared := Some(k);
      phase := Wiping;
      Record(before, EraseBegin(k));
    }

    /** One render commit; the wiping arm's `onAppear` resumes the armed erase. */
    method Commit()
      requires Valid()
      modifies this
      ensures View() == Step(old(View()), Render)
      ensures trace == old(trace) + [Render] && Valid() && Safe()
    {
      ghost var before := View();
      CommitSegment();
      Record(before, Render);
    }

    method CommitSegment()
      modifies this
      ensures View() == Step(old(View()), Render)
      ensures trace == old(trace)
    {
      var appears := phase.Wiping? && !mounted.Wiping?;
      if phase.Onboarding? && !mounted.Onboarding? {
        isGenerating := false;
      }
      mounted := phase;
      if appears && wipingAppeared.Some? {
        erases := erases[wipingAppeared.value := Resumed];
        wipingAppeared := None;
      }
    }

    method RunGate(k: nat, ok: bool)
      requires Valid() && k in erases && erases[k].Resumed?
      modifies this
      ensures View() == Step(old(View()), EraseGate(k, ok))
      ensures trace == old(trace) + [EraseGate(k, ok)] && Valid() && Safe()
    {
      ghost var before := View();
      RunGateSegment(k, ok);
      Record(before, EraseGate(k, ok));
    }

    method RunGateSegment(k: nat, ok: bool)
      requires k in erases && erases[k].Resumed?
      modifies this
      ensures View() == Step(old(View()), EraseGate(k, ok))
      ensures trace == old(trace)
    {
      if !ok {
        phase := BootFailed(IdentityUnreadable);
        erases := erases[k := Ended];
        return;
      }
      world := world.(identity := None);
      cut := true;
      erases := erases[k := Sweeping(Program(assembled), false, assembled, world.contactStores)];
    }

    /** The next deletion of erase `k`, its failure collected. */
    method SweepOne(k: nat, ok: bool)
      requires Valid() && k in erases && erases[k].Sweeping? && erases[k].todo != []
      modifies this
      ensures View() == Step(old(View()), EraseOp(k, ok))
      ensures k in erases && erases[k] == NextErase(old(erases[k]), ok)
      ensures trace == old(trace) + [EraseOp(k, ok)] && Valid() && Safe()
    {
      ghost var before := View();
      SweepOneSegment(k, ok);
      Record(before, EraseOp(k, ok));
    }

    method SweepOneSegment(k: nat, ok: bool)
      requires k in erases && erases[k].Sweeping? && erases[k].todo != []
      modifies this`world, this`erases
      ensures View() == Step(old(View()), EraseOp(k, ok))
      ensures k in erases && erases[k] == NextErase(old(erases[k]), ok)
    {
      var e := erases[k];
      if ok {
        world := Apply(world, e.todo[0]);
      }
      erases := erases[k := NextErase(e, ok)];
    }

    /** The remaining deletions of erase `k` with nothing in between, collecting failures. */
    method RunSweep(k: nat, outcome: seq<bool>)
      requires Valid() && k in erases && erases[k].Sweeping? && |outcome| == |erases[k].todo|
      modifies this
      ensures Valid() && |trace| == |old(trace)| + |outcome| && trace[..|old(trace)|] == old(trace)
      ensures forall i :: 0 <= i < |outcome| ==> trace[|old(trace)| + i] == EraseOp(k, outcome[i])
      ensures k in erases && erases[k].Sweeping? && erases[k].todo == []
      ensures erases[k].failed == (old(erases[k].failed) || GatingFailure(old(erases[k].todo), outcome, |outcome|))
    {
      ghost var before, todo, failed := trace, erases[k].todo, erases[k].failed;
      for i := 0 to |outcome|
        invariant Valid() && |trace| == |before| + i && trace[..|before|] == before
        invariant forall j :: 0 <= j < i ==> trace[|before| + j] == EraseOp(k, outcome[j])
        invariant k in erases && erases[k].Sweeping? && erases[k].todo == todo[i..]
        invariant erases[k].failed == (failed || GatingFailure(todo, outcome, i))
      {
        FailureStep(todo, outcome, i);
        SweepOne(k, outcome[i]);
      }
    }

    method VerifyAndRoute(k: nat, resolvable: bool)
      requires Valid() && k in erases && erases[k].Sweeping? && erases[k].todo == []
      modifies this
      ensures View() == Step(old(View()), EraseVerify(k, resolvable))
      ensures trace == old(trace) + [EraseVerify(k, resolvable)] && Valid() && Safe()
    {
      ghost var before := View();
      VerifyAndRouteSegment(k, resolvable);
      Record(before, EraseVerify(k, resolvable));
    }

    method VerifyAndRouteSegment(k: nat, resolvable: bool)
      requires k in erases && erases[k].Sweeping? && erases[k].todo == []
      modifies this
      ensures View() == Step(old(View()), EraseVerify(k, resolvable))
      ensures trace == old(trace)
    {
      var wipeFailed := erases[k].failed;
      var storeGone := resolvable && !world.storeFiles;
      erases := erases[k := Ended];
      if wipeFailed || !storeGone {
        phase := BootFailed(IdentityUnreadable);
        return;
      }
      phase := Onboarding;
      cut := false;
    }
  }
}
