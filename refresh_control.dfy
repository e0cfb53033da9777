/** The pull-to-refresh control with a custom indicator
    (CustomRefreshControl.swift). The indicator view is reduced to its
    `progress` and the start/stop/reset requests it receives. */
module RefreshControl {
  import opened Geometry

  /** Pull distance at which the indicator is fully drawn. */
  const MaxPullDistance: real := 150.0
  /** Keeps the indicator above the scroll view's content. */
  const AnimationViewYOffset: real := 60.0

  datatype AnimationCall = StartAnimation | StopAnimation | ResetAnimation

  /** How far the indicator is drawn for a scroll offset: the pulled
      distance as a fraction of `MaxPullDistance`, at most 1. */
  function PullProgress(offsetY: real): (progress: real)
    ensures 0.0 <= progress <= 1.0
    ensures Abs(offsetY) <= MaxPullDistance ==> progress * MaxPullDistance == Abs(offsetY)
    ensures Abs(offsetY) >= MaxPullDistance ==> progress == 1.0
  {
    var ratio := Abs(offsetY / MaxPullDistance);
    if ratio <= 1.0 then ratio else 1.0
  }

  /** Pulling further never draws less of the indicator. */
  lemma PullProgressMonotone(offsetY1: real, offsetY2: real)
    requires Abs(offsetY1) <= Abs(offsetY2)
    ensures PullProgress(offsetY1) <= PullProgress(offsetY2)
  {
    if Abs(offsetY2) < MaxPullDistance {
      assert PullProgress(offsetY1) * MaxPullDistance <= PullProgress(offsetY2) * MaxPullDistance;
    }
  }

  /** Vertical position of the indicator for a scroll offset. */
  function IndicatorY(offsetY: real): (y: real)
    ensures y + offsetY + AnimationViewYOffset == 0.0
  {
    -offsetY - AnimationViewYOffset
  }

  class CustomRefreshControl {
    /** UIRefreshControl's own refreshing state. */
    var isRefreshing: bool
    var isAnimating: bool
    var isEndRefreshingCalled: bool
    /** The indicator view's progress. */
    var progress: real
    /** Constant of the indicator's vertical constraint. */
    var indicatorY: real
    /** Requests sent to the indicator view, in order. */
    var animationCalls: seq<AnimationCall>

    constructor ()
      ensures !isRefreshing && !isAnimating && !isEndRefreshingCalled
      ensures progress == 0.0 && indicatorY == 0.0 && animationCalls == []
    {
      isRefreshing := false;
      isAnimating := false;
      isEndRefreshingCalled := false;
      progress := 0.0;
      indicatorY := 0.0;
      animationCalls := [];
    }

    /** The user pulled far enough: UIKit starts refreshing and sends
        `valueChanged`, which lands in `handleRefreshControl`. */
    method BeginRefreshingByUser()
      modifies this`isRefreshing, this`isAnimating, this`animationCalls
      ensures isRefreshing && isAnimating
      ensures animationCalls == old(animationCalls) + [StartAnimation]
    {
      isRefreshing := true;
      HandleRefreshControl();
    }

    /** `endRefreshing`: stop the indicator and remember that refreshing
        ended, so that the next return to the top resets it. */
    method EndRefreshing()
      modifies this`isRefreshing, this`isEndRefreshingCalled, this`animationCalls
      ensures !isRefreshing && isEndRefreshingCalled
      ensures animationCalls == old(animationCalls) + [StopAnimation]
    {
      isRefreshing := false;
      animationCalls := animationCalls + [StopAnimation];
      isEndRefreshingCalled := true;
    }

    /** `updateProgress(with:)`: reset once the scroll view is back at the
        top after refreshing ended; draw the indicator by the pulled
        distance unless it is spinning; keep it just above the content. */
    method UpdateProgress(offsetY: real)
      modifies this`isAnimating, this`isEndRefreshingCalled, this`progress, this`indicatorY, this`animationCalls
      ensures var resets := old(isEndRefreshingCalled) && offsetY >= 0.0;
              && isAnimating == (old(isAnimating) && !resets)
              && isEndRefreshingCalled == (old(isEndRefreshingCalled) && !resets)
              && animationCalls == old(animationCalls) + (if resets then [ResetAnimation] else [])
      ensures progress == if isAnimating then old(progress) else PullProgress(offsetY)
      ensures 0.0 <= old(progress) <= 1.0 ==> 0.0 <= progress <= 1.0
      ensures indicatorY == IndicatorY(offsetY)
    {
      if isEndRefreshingCalled && offsetY >= 0.0 {
        Reset();
      }
      if !isAnimating {
        progress := PullProgress(offsetY);
      }
      indicatorY := -offsetY - AnimationViewYOffset;
    }

    /** `resetIfNotRefreshing`. */
    method ResetIfNotRefreshing()
      modifies this`isAnimating, this`isEndRefreshingCalled, this`animationCalls
      ensures isRefreshing ==> isAnimating == old(isAnimating) && isEndRefreshingCalled == old(isEndRefreshingCalled)
      ensures isRefreshing ==> animationCalls == old(animationCalls)
      ensures !isRefreshing ==> !isAnimating && !isEndRefreshingCalled && animationCalls == old(animationCalls) + [ResetAnimation]
    {
      if !isRefreshing {
        Reset();
      }
    }

    /** `handleRefreshControl`: start spinning, but only while refreshing. */
    method HandleRefreshControl()
      modifies this`isAnimating, this`animationCalls
      ensures isRefreshing ==> isAnimating && animationCalls == old(animationCalls) + [StartAnimation]
      ensures !isRefreshing ==> isAnimating == old(isAnimating) && animationCalls == old(animationCalls)
    {
      if isRefreshing {
        isAnimating := true;
        animationCalls := animationCalls + [StartAnimation];
      }
    }

    /** `reset`: both flags cleared and the indicator reset. */
    method Reset()
      modifies this`isAnimating, this`isEndRefreshingCalled, this`animationCalls
      ensures !isAnimating && !isEndRefreshingCalled
      ensures animationCalls == old(animationCalls) + [ResetAnimation]
    {
      isAnimating := false;
      isEndRefreshingCalled := false;
      animationCalls := animationCalls + [ResetAnimation];
    }
  }

  /** Worked example. One pull-to-refresh cycle: the indicator follows the pull, spins
      while refreshing without following the pull, and is reset only once
      the content is back at the top. */
  method RefreshCycleScenario()
  {
    var control := new CustomRefreshControl();
    control.UpdateProgress(-75.0);
    assert control.progress == 0.5;
    control.BeginRefreshingByUser();
    control.UpdateProgress(-200.0);
    assert control.progress == 0.5 && control.isAnimating;
    control.EndRefreshing();
    control.UpdateProgress(-10.0);
    assert control.isAnimating && control.isEndRefreshingCalled;
    control.UpdateProgress(0.0);
    assert !control.isAnimating && !control.isEndRefreshingCalled && control.progress == 0.0;
    assert control.animationCalls == [StartAnimation, StopAnimation, ResetAnimation];
  }
}
