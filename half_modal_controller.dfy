/** The half-modal sheet's drag-to-dismiss gesture handling
    (SampleHalfModalViewController.swift). */
module HalfModalController {
  import opened Geometry
  import opened HalfModal
  import opened UIKit

  /** A drag past this fraction of the view's height commits to closing. */
  const PercentThreshold: real := 0.1
  /** A downward flick faster than this (points per second) commits to closing. */
  const VelocityFireClosing: real := 1200.0

  /** Fraction of the dismissal covered by a downward translation `translationY`
      of a view `height` high: `fminf(fmaxf(translationY / height, 0), 1)`.
      A zero height divides to +inf (clamped to 1), -inf or NaN (both to 0,
      since fmaxf ignores a NaN operand). */
  function Progress(translationY: real, height: real): (p: real)
    ensures 0.0 <= p <= 1.0
    ensures height > 0.0 && 0.0 <= translationY <= height ==> p * height == translationY
    ensures height > 0.0 && translationY <= 0.0 ==> p == 0.0
    ensures height > 0.0 && translationY >= height ==> p == 1.0
    ensures height == 0.0 ==> (p == 1.0 <==> translationY > 0.0) && (p == 0.0 <==> translationY <= 0.0)
  {
    if height == 0.0 then (if translationY > 0.0 then 1.0 else 0.0)
    else Clamp01(translationY / height)
  }

  /** State after a `changed` sample: closing is committed by distance or speed. */
  function ChangedState(progress: real, velocityY: real): (s: State)
    ensures s == ShouldClose || s == InProgress
    ensures s == ShouldClose <==> progress > PercentThreshold || velocityY > VelocityFireClosing
  {
    if progress > PercentThreshold || velocityY > VelocityFireClosing then ShouldClose else InProgress
  }

  /** Number of occurrences of `c` in a call log. */
  function Occurrences(calls: seq<HostCall>, c: HostCall): nat
  {
    if calls == [] then 0
    else Occurrences(calls[..|calls| - 1], c) + (if calls[|calls| - 1] == c then 1 else 0)
  }

  /** Occurrences in a log add up over its parts. */
  lemma {:induction false} OccurrencesAppend(a: seq<HostCall>, b: seq<HostCall>, c: HostCall)
    ensures Occurrences(a + b, c) == Occurrences(a, c) + Occurrences(b, c)
    decreases |b|
  {
    if b == [] {
      assert a + b == a;
    } else {
      var front := b[..|b| - 1];
      assert (a + b)[..|a + b| - 1] == a + front;
      OccurrencesAppend(a, front, c);
    }
  }

  /** 1 if the log has `c` at position `i`, else 0. */
  function Indicator(calls: seq<HostCall>, i: nat, c: HostCall): nat
  {
    if i < |calls| && calls[i] == c then 1 else 0
  }

  /** Occurrences in a log of at most three calls, position by position. */
  lemma {:induction false} CountShort(calls: seq<HostCall>, c: HostCall)
    requires |calls| <= 3
    ensures Occurrences(calls, c) == Indicator(calls, 0, c) + Indicator(calls, 1, c) + Indicator(calls, 2, c)
    decreases |calls|
  {
    if calls != [] {
      var n := |calls| - 1;
      var front := calls[..n];
      CountShort(front, c);
      assert Occurrences(calls, c) == Occurrences(front, c) + Indicator(calls, n, c);
      assert forall i: nat :: i < n ==> Indicator(front, i, c) == Indicator(calls, i, c);
    }
  }

  /** The calls a gesture sample appends to the log of a running session. */
  lemma {:induction false} StepAppends(s: Session, height: real, phase: GestureState, translationY: real, velocityY: real)
    requires s.state != NotInProgress
    ensures var r := GestureStep(s, height, phase, translationY, velocityY);
            var extra := r.calls[|s.calls|..];
            && r.calls == s.calls + extra
            && |extra| <= 3
            && (forall c :: Occurrences(r.calls, c) == Occurrences(s.calls, c) + Occurrences(extra, c))
  {
    var r := GestureStep(s, height, phase, translationY, velocityY);
    var extra := r.calls[|s.calls|..];
    assert r.calls == s.calls + extra;
    forall c {
      OccurrencesAppend(s.calls, extra, c);
    }
  }

  /** What one gesture sample can change: the interactor's state, its
      percent-driven transition fields and the host's call log. */
  datatype Session = Session(state: State, percentComplete: real, completionSpeed: real, calls: seq<HostCall>)

  /** The effect of `handleTransitionGesture` on a session, for a view of the
      given height, once both handlers are installed. */
  function GestureStep(s: Session, height: real, phase: GestureState, translationY: real, velocityY: real): (r: Session)
    ensures s.state == NotInProgress ==> r == s
    ensures s.state != NotInProgress ==>
              && s.calls <= r.calls
              && (r.state == NotInProgress <==> phase == Ended || phase == Cancelled)
              && r.state != StartInteraction
  {
    if s.state == NotInProgress then s
    else
      var started := s.state == StartInteraction;
      var state := if started then InProgress else s.state;
      var calls := s.calls + (if started then [Dismiss(true)] else []);
      var pc := s.percentComplete;
      var p := Progress(translationY, height);
      match phase
      case Changed =>
        Session(ChangedState(p, velocityY), p, s.completionSpeed, calls + [HostCall.Update(p)])
      case Ended =>
        if state == ShouldClose then
          Session(NotInProgress, pc, FinishSpeed(pc), calls + [HostCall.Finish(FinishSpeed(pc)), ResetHandler])
        else
          Session(NotInProgress, pc, CancelSpeed(pc), calls + [HostCall.Cancel(CancelSpeed(pc)), ResetHandler])
      case Cancelled =>
        Session(NotInProgress, pc, CancelSpeed(pc), calls + [HostCall.Cancel(CancelSpeed(pc)), ResetHandler])
      case _ =>
        Session(state, pc, s.completionSpeed, calls)
  }

  /** Every session opened by the close handler dismisses the sheet once,
      interactively, and is closed by the reset handler once. */
  predicate Balanced(s: Session)
  {
    && Occurrences(s.calls, CloseHandler)
         == Occurrences(s.calls, ResetHandler) + (if s.state == NotInProgress then 0 else 1)
    && Occurrences(s.calls, CloseHandler)
         == Occurrences(s.calls, Dismiss(true)) + (if s.state == StartInteraction then 1 else 0)
    && Occurrences(s.calls, Dismiss(false)) == 0
  }

  /** Starting a session: the close handler runs when none was running. */
  function StartStep(s: Session): Session
  {
    if s.state == NotInProgress then s.(state := StartInteraction, calls := s.calls + [CloseHandler]) else s
  }

  class SampleHalfModalViewController {
    const interactor: Interactor
    /** `view.bounds.height` */
    var viewHeight: real
    /** Last reported `contentOffset.y` of the sheet's table view. */
    var tableViewContentOffsetY: real

    /** The part of the interactor and host a gesture sample can change. */
    function Snapshot(): Session
      reads this, interactor, interactor.host
    {
      Session(interactor.state, interactor.percentComplete, interactor.completionSpeed, interactor.host.calls)
    }

    ghost predicate Valid()
      reads this, interactor, interactor.host
    {
      interactor.hasCloseHandler && interactor.hasResetHandler && Balanced(Snapshot())
    }

    /** `init()` followed by `viewDidLoad()`, which installs the handlers. */
    constructor (host: Host, viewHeight: real)
      requires host.calls == []
      ensures Valid()
      ensures fresh(interactor) && interactor.host == host
      ensures interactor.state == NotInProgress && host.calls == []
      ensures this.viewHeight == viewHeight && tableViewContentOffsetY == 0.0
    {
      interactor := new Interactor(host);
      this.viewHeight := viewHeight;
      tableViewContentOffsetY := 0.0;
      new;
      SetupInteractor();
    }

    /** Installs the close handler (stops the table view bouncing) and the
        reset handler (lets it bounce again). */
    method SetupInteractor()
      modifies interactor`hasCloseHandler, interactor`hasResetHandler
      ensures interactor.hasCloseHandler && interactor.hasResetHandler
    {
      interactor.hasCloseHandler := true;
      interactor.hasResetHandler := true;
    }

    /** UIKit asks for an interaction controller when the dismissal starts:
        the interactor is supplied only while a drag is being tracked. */
    function InteractionControllerForDismissal(): (r: Interactor?)
      reads this, interactor
      ensures r != null <==> interactor.state == InProgress || interactor.state == StartInteraction
      ensures r != null ==> r == interactor
    {
      match interactor.state
      case InProgress => interactor
      case StartInteraction => interactor
      case NotInProgress => null
      case ShouldClose => null
    }

    /** Turns one pan sample into a state change and host calls. */
    method HandleTransitionGesture(phase: GestureState, translationY: real, velocityY: real)
      requires interactor.hasResetHandler
      modifies interactor`state, interactor`percentComplete, interactor`completionSpeed
      modifies interactor.host`calls
      ensures Snapshot() == GestureStep(old(Snapshot()), viewHeight, phase, translationY, velocityY)
    {
      match interactor.state {
        case StartInteraction =>
          interactor.state := InProgress;
          var controller := InteractionControllerForDismissal();
          interactor.host.calls := interactor.host.calls + [Dismiss(controller != null)];
        case InProgress =>
        case ShouldClose =>
        case NotInProgress =>
          return;
      }

      var progress := Progress(translationY, viewHeight);

      match phase {
        case Changed =>
          interactor.state := ChangedState(progress, velocityY);
          interactor.Update(progress);
        case Cancelled =>
          interactor.Cancel();
          interactor.Reset();
        case Ended =>
          if interactor.state == ShouldClose {
            interactor.Finish();
          } else {
            interactor.Cancel();
          }
          interactor.Reset();
        case Began =>
        case Other =>
      }
    }

    /** A drag on the sheet's header always tries to open a session. */
    method HeaderGestureRecognized(phase: GestureState, translationY: real, velocityY: real)
      requires Valid()
      modifies interactor`state, interactor`percentComplete, interactor`completionSpeed
      modifies interactor.host`calls
      ensures Valid()
      ensures Snapshot() == GestureStep(StartStep(old(Snapshot())), viewHeight, phase, translationY, velocityY)
    {
      ghost var s0 := Snapshot();
      interactor.UpdateStateShouldStartIfNeeded();
      assert Snapshot() == StartStep(s0);
      HandleTransitionGesture(phase, translationY, velocityY);
      GestureKeepsValid(s0, true, phase, translationY, velocityY);
    }

    /** A drag on the table view opens a session only when the table is
        scrolled to its top. */
    method TableViewGestureRecognized(phase: GestureState, translationY: real, velocityY: real)
      requires Valid()
      modifies interactor`state, interactor`percentComplete, interactor`completionSpeed
      modifies interactor.host`calls
      ensures Valid()
      ensures Snapshot() == GestureStep(SessionStart(old(Snapshot()), tableViewContentOffsetY), viewHeight, phase, translationY, velocityY)
    {
      ghost var s0 := Snapshot();
      if tableViewContentOffsetY <= 0.0 {
        interactor.UpdateStateShouldStartIfNeeded();
      }
      assert Snapshot() == SessionStart(s0, tableViewContentOffsetY);
      HandleTransitionGesture(phase, translationY, velocityY);
      GestureKeepsValid(s0, tableViewContentOffsetY <= 0.0, phase, translationY, velocityY);
    }

    /** A gesture sample, taken after opening a session when `start` holds,
        leaves a valid controller valid. */
    lemma GestureKeepsValid(s0: Session, start: bool, phase: GestureState, translationY: real, velocityY: real)
      requires Balanced(s0)
      requires interactor.hasCloseHandler && interactor.hasResetHandler
      requires Snapshot() == GestureStep(if start then StartStep(s0) else s0, viewHeight, phase, translationY, velocityY)
      ensures Valid()
    {
      var s := if start then StartStep(s0) else s0;
      StartKeepsBalanced(s0);
      StepKeepsBalanced(s, viewHeight, phase, translationY, velocityY);
    }

    method ScrollViewDidScroll(contentOffsetY: real)
      modifies this`tableViewContentOffsetY
      ensures tableViewContentOffsetY == contentOffsetY
    {
      tableViewContentOffsetY := contentOffsetY;
    }
  }

  /** The session a table-view drag works on: a new one when the table is
      scrolled to its top, the current one otherwise. */
  function SessionStart(s: Session, tableViewContentOffsetY: real): Session
  {
    if tableViewContentOffsetY <= 0.0 then StartStep(s) else s
  }

  /** Opening a session keeps the handler and dismiss counts balanced. */
  lemma StartKeepsBalanced(s: Session)
    requires Balanced(s)
    ensures Balanced(StartStep(s))
  {
    if s.state == NotInProgress {
      OccurrencesAppend(s.calls, [CloseHandler], CloseHandler);
      OccurrencesAppend(s.calls, [CloseHandler], ResetHandler);
      OccurrencesAppend(s.calls, [CloseHandler], Dismiss(true));
      OccurrencesAppend(s.calls, [CloseHandler], Dismiss(false));
    }
  }

  /** What a gesture sample on a running session adds to the log: a
      dismissal when the session was just opened, a reset when it ends, and
      never the close handler or a non-interactive dismissal. */
  lemma StepCounts(s: Session, height: real, phase: GestureState, translationY: real, velocityY: real)
    requires s.state != NotInProgress
    ensures var r := GestureStep(s, height, phase, translationY, velocityY);
            && Occurrences(r.calls, CloseHandler) == Occurrences(s.calls, CloseHandler)
            && Occurrences(r.calls, Dismiss(false)) == Occurrences(s.calls, Dismiss(false))
            && Occurrences(r.calls, Dismiss(true))
                 == Occurrences(s.calls, Dismiss(true)) + (if s.state == StartInteraction then 1 else 0)
            && Occurrences(r.calls, ResetHandler)
                 == Occurrences(s.calls, ResetHandler) + (if r.state == NotInProgress then 1 else 0)
  {
    StepCount(s, height, phase, translationY, velocityY, CloseHandler);
    StepCount(s, height, phase, translationY, velocityY, Dismiss(false));
    StepCount(s, height, phase, translationY, velocityY, Dismiss(true));
    StepCount(s, height, phase, translationY, velocityY, ResetHandler);
  }

  /** The occurrences of one call a gesture sample on a running session
      adds to the log, position by position. */
  lemma StepCount(s: Session, height: real, phase: GestureState, translationY: real, velocityY: real, c: HostCall)
    requires s.state != NotInProgress
    ensures var r := GestureStep(s, height, phase, translationY, velocityY);
            var extra := r.calls[|s.calls|..];
            && r.calls == s.calls + extra
            && Occurrences(r.calls, c)
                 == Occurrences(s.calls, c) + Indicator(extra, 0, c) + Indicator(extra, 1, c) + Indicator(extra, 2, c)
  {
    var r := GestureStep(s, height, phase, translationY, velocityY);
    StepAppends(s, height, phase, translationY, velocityY);
    CountShort(r.calls[|s.calls|..], c);
  }

  /** A gesture sample keeps the handler and dismiss counts balanced. */
  lemma StepKeepsBalanced(s: Session, height: real, phase: GestureState, translationY: real, velocityY: real)
    requires Balanced(s)
    ensures Balanced(GestureStep(s, height, phase, translationY, velocityY))
  {
    if s.state != NotInProgress {
      StepCounts(s, height, phase, translationY, velocityY);
    }
  }

  /** A sample delivered while no session runs has no effect at all. */
  lemma StraySampleIsIgnored(s: Session, height: real, phase: GestureState, translationY: real, velocityY: real)
    requires s.state == NotInProgress
    ensures GestureStep(s, height, phase, translationY, velocityY) == s
  {
  }

  /** Opening a session runs the close handler once; a running session is
      left alone, so asking again is idempotent. */
  lemma StartRunsCloseHandlerOnce(s: Session)
    ensures StartStep(StartStep(s)) == StartStep(s)
    ensures s.state == NotInProgress ==>
              StartStep(s).state == StartInteraction && StartStep(s).calls == s.calls + [CloseHandler]
    ensures s.state != NotInProgress ==> StartStep(s) == s
  {
  }

  /** The first sample of a session dismisses the sheet, exactly once. */
  lemma DismissOncePerSession(s: Session, height: real, phase: GestureState, translationY: real, velocityY: real)
    ensures var r := GestureStep(s, height, phase, translationY, velocityY);
            Occurrences(r.calls, Dismiss(true))
              == Occurrences(s.calls, Dismiss(true)) + (if s.state == StartInteraction then 1 else 0)
    ensures s.state == StartInteraction ==>
              GestureStep(s, height, phase, translationY, velocityY).calls[..|s.calls| + 1] == s.calls + [Dismiss(true)]
  {
    if s.state != NotInProgress {
      StepCounts(s, height, phase, translationY, velocityY);
    }
  }

  /** A `changed` sample commits to closing exactly when the drag passed the
      distance threshold or was fast enough, and always forwards the progress. */
  lemma ChangedSampleCommits(s: Session, height: real, translationY: real, velocityY: real)
    requires s.state != NotInProgress
    ensures var r := GestureStep(s, height, Changed, translationY, velocityY);
            var p := Progress(translationY, height);
            && (r.state == ShouldClose <==> p > PercentThreshold || velocityY > VelocityFireClosing)
            && (r.state != ShouldClose ==> r.state == InProgress)
            && r.percentComplete == p
            && r.calls[|r.calls| - 1] == HostCall.Update(p)
  {
  }

  /** Releasing finishes the dismissal exactly when closing was committed,
      cancels it otherwise, and always ends the session. */
  lemma EndedSampleResolves(s: Session, height: real, translationY: real, velocityY: real)
    requires s.state != NotInProgress
    ensures var r := GestureStep(s, height, Ended, translationY, velocityY);
            var pc := s.percentComplete;
            && r.state == NotInProgress
            && |r.calls| >= 2
            && r.calls[|r.calls| - 1] == ResetHandler
            && (r.calls[|r.calls| - 2] == HostCall.Finish(FinishSpeed(pc)) <==> s.state == ShouldClose)
            && (s.state != ShouldClose ==> r.calls[|r.calls| - 2] == HostCall.Cancel(CancelSpeed(pc)))
  {
  }

  /** An interrupted gesture always cancels and ends the session. */
  lemma CancelledSampleResolves(s: Session, height: real, translationY: real, velocityY: real)
    requires s.state != NotInProgress
    ensures var r := GestureStep(s, height, Cancelled, translationY, velocityY);
            && r.state == NotInProgress
            && |r.calls| >= 2
            && r.calls[|r.calls| - 2..] == [HostCall.Cancel(CancelSpeed(s.percentComplete)), ResetHandler]
  {
  }

  /** Worked example. A slow drag below the 10 % threshold keeps tracking; a
      further drag commits, and releasing then finishes the dismissal. A later drag
      on a scrolled table view opens no session. */
  method DragToDismissScenario()
  {
    var host := new Host();
    var vc := new SampleHalfModalViewController(host, 500.0);
    vc.HeaderGestureRecognized(Began, 0.0, 0.0);
    assert vc.interactor.state == InProgress;
    assert host.calls == [CloseHandler, Dismiss(true)];
    assert Progress(40.0, 500.0) == 0.08;
    vc.HeaderGestureRecognized(Changed, 40.0, 100.0);
    assert vc.interactor.state == InProgress;
    assert Progress(80.0, 500.0) == 0.16;
    vc.HeaderGestureRecognized(Changed, 80.0, 50.0);
    assert vc.interactor.state == ShouldClose && vc.interactor.percentComplete == 0.16;
    ghost var committed := vc.Snapshot();
    EndedSampleResolves(committed, 500.0, 80.0, 50.0);
    assert FinishSpeed(0.16) == 0.84;
    vc.HeaderGestureRecognized(Ended, 80.0, 50.0);
    assert vc.interactor.state == NotInProgress;
    assert host.calls[|host.calls| - 2] == HostCall.Finish(0.84);
    vc.ScrollViewDidScroll(10.0);
    ghost var ended := host.calls;
    StraySampleIsIgnored(vc.Snapshot(), 500.0, Changed, 80.0, 50.0);
    vc.TableViewGestureRecognized(Changed, 80.0, 50.0);
    assert vc.interactor.state == NotInProgress && host.calls == ended;
  }
}
