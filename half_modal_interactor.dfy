/** The percent-driven interactor of the half-modal sheet
    (HalfModalTransitioningInteractor.swift). */
module HalfModal {

  /** Interaction state of one drag-to-dismiss session. */
  datatype State = NotInProgress | StartInteraction | InProgress | ShouldClose

  /** What the interactor and its view controller ask of the presentation
      host, in order: the dismiss call (with whether UIKit obtained an
      interaction controller for it), the percent-driven transition's
      update/finish/cancel, and the two handler closures. */
  datatype HostCall =
    | Dismiss(interactive: bool)
    | Update(progress: real)
    | Finish(speed: real)
    | Cancel(speed: real)
    | CloseHandler
    | ResetHandler

  /** The presentation host: records every call made to it. */
  class Host {
    var calls: seq<HostCall>

    constructor ()
      ensures calls == []
    {
      calls := [];
    }
  }

  /** The completion speed `finish` uses: the remaining fraction. */
  function FinishSpeed(percentComplete: real): (speed: real)
    ensures speed + percentComplete == 1.0
    ensures 0.0 <= percentComplete <= 1.0 ==> 0.0 <= speed <= 1.0
  {
    1.0 - percentComplete
  }

  /** The completion speed `cancel` uses: the fraction already covered. */
  function CancelSpeed(percentComplete: real): (speed: real)
    ensures 0.0 <= percentComplete <= 1.0 ==> 0.0 <= speed <= 1.0
    ensures speed + FinishSpeed(percentComplete) == 1.0
  {
    percentComplete
  }

  class Interactor {
    var state: State
    /** UIPercentDrivenInteractiveTransition.percentComplete */
    var percentComplete: real
    /** UIPercentDrivenInteractiveTransition.completionSpeed */
    var completionSpeed: real
    /** Whether the optional `closeHandler` / `resetHandler` closures are set. */
    var hasCloseHandler: bool
    var hasResetHandler: bool
    const host: Host

    constructor (host: Host)
      ensures state == NotInProgress
      ensures percentComplete == 0.0 && completionSpeed == 1.0
      ensures !hasCloseHandler && !hasResetHandler
      ensures this.host == host
    {
      state := NotInProgress;
      percentComplete := 0.0;
      completionSpeed := 1.0;
      hasCloseHandler := false;
      hasResetHandler := false;
      this.host := host;
    }

    /** `update(_:)` of the percent-driven transition. */
    method Update(progress: real)
      modifies this`percentComplete, host`calls
      ensures percentComplete == progress
      ensures host.calls == old(host.calls) + [HostCall.Update(progress)]
    {
      percentComplete := progress;
      host.calls := host.calls + [HostCall.Update(progress)];
    }

    /** `cancel()`: the reverse animation runs at the speed of the part covered. */
    method Cancel()
      modifies this`completionSpeed, host`calls
      ensures completionSpeed == CancelSpeed(percentComplete)
      ensures host.calls == old(host.calls) + [HostCall.Cancel(completionSpeed)]
    {
      completionSpeed := CancelSpeed(percentComplete);
      host.calls := host.calls + [HostCall.Cancel(completionSpeed)];
    }

    /** `finish()`: the remaining animation runs at the speed of the part left. */
    method Finish()
      modifies this`completionSpeed, host`calls
      ensures completionSpeed == FinishSpeed(percentComplete)
      ensures host.calls == old(host.calls) + [HostCall.Finish(completionSpeed)]
    {
      completionSpeed := FinishSpeed(percentComplete);
      host.calls := host.calls + [HostCall.Finish(completionSpeed)];
    }

    /** Starts a session when none is running; otherwise does nothing. */
    method UpdateStateShouldStartIfNeeded()
      modifies this`state, host`calls
      ensures old(state) == NotInProgress ==>
                state == StartInteraction &&
                host.calls == old(host.calls) + (if hasCloseHandler then [CloseHandler] else [])
      ensures old(state) != NotInProgress ==>
                state == old(state) && host.calls == old(host.calls)
    {
      match state {
        case NotInProgress =>
          state := StartInteraction;
          if hasCloseHandler {
            host.calls := host.calls + [CloseHandler];
          }
        case StartInteraction =>
        case InProgress =>
        case ShouldClose =>
      }
    }

    /** Ends the session whatever its state. */
    method Reset()
      modifies this`state, host`calls
      ensures state == NotInProgress
      ensures host.calls == old(host.calls) + (if hasResetHandler then [ResetHandler] else [])
    {
      state := NotInProgress;
      if hasResetHandler {
        host.calls := host.calls + [ResetHandler];
      }
    }
  }
}
