/** The pure decision at app start (Beacon/BootRouter.swift). */
module BootRouter {
  import opened Wrappers

  datatype BootFailure = IdentityUnreadable | StackFailed

  /** Every load error but `NotFound` means an item exists that could not be produced. */
  datatype LoadError = NotFound | Unreadable

  datatype BootRoute<+I, +C> =
    | ToOnboarding
    | ToBootFailed(failure: BootFailure)
    | ToReady(identity: I, container: C)

  /** Onboarding is reached from exactly one input, and the stack is built only on a loaded identity. */
  function RouteBoot<I, C, E>(load: Result<I, LoadError>, buildStack: I -> Result<C, E>): (r: BootRoute<I, C>)
    ensures r.ToOnboarding? <==> load == Err(NotFound)
    ensures r == ToBootFailed(IdentityUnreadable) <==> load == Err(Unreadable)
    ensures r == ToBootFailed(StackFailed) <==> load.Ok? && buildStack(load.value).Err?
    ensures r.ToReady? ==> load == Ok(r.identity) && buildStack(r.identity) == Ok(r.container)
  {
    match load
    case Err(NotFound) => ToOnboarding
    case Err(Unreadable) => ToBootFailed(IdentityUnreadable)
    case Ok(identity) =>
      match buildStack(identity)
      case Ok(container) => ToReady(identity, container)
      case Err(_) => ToBootFailed(StackFailed)
  }
}
