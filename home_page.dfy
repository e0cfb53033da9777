/** The home screen's five-page pager (HomePageViewController.swift).
    Pages are identified by their page index 0 ... 4. */
module HomePage {
  import opened UIKit

  const PageCount: nat := 5

  datatype NavigationDirection = Forward | Reverse

  /** A page shown through `setViewControllers`. */
  datatype Transition = Transition(page: nat, direction: NavigationDirection, animated: bool)

  /** The page shown before the one with index `pageIndex`, wrapping from
      the first page to the last; none for an unknown index. */
  function Before(pageIndex: int): (r: Option<nat>)
    ensures r.Some? <==> 0 <= pageIndex < PageCount
    ensures r.Some? ==> r.value == (pageIndex + PageCount - 1) % PageCount
  {
    match pageIndex
    case 4 => Some(3)
    case 3 => Some(2)
    case 2 => Some(1)
    case 1 => Some(0)
    case 0 => Some(4)
    case _ => None
  }

  /** The page shown after the one with index `pageIndex`, wrapping from
      the last page to the first; none for an unknown index. */
  function After(pageIndex: int): (r: Option<nat>)
    ensures r.Some? <==> 0 <= pageIndex < PageCount
    ensures r.Some? ==> r.value == (pageIndex + 1) % PageCount
  {
    match pageIndex
    case 0 => Some(1)
    case 1 => Some(2)
    case 2 => Some(3)
    case 3 => Some(4)
    case 4 => Some(0)
    case _ => None
  }

  /** Swiping forward then back, or back then forward, returns to the page. */
  lemma BeforeAfterInverse(pageIndex: int)
    requires 0 <= pageIndex < PageCount
    ensures After(pageIndex).Some? && Before(After(pageIndex).value) == Some(pageIndex)
    ensures Before(pageIndex).Some? && After(Before(pageIndex).value) == Some(pageIndex)
  {
  }

  /** The page reached by `steps` forward swipes from `pageIndex`. */
  function SwipeForward(pageIndex: nat, steps: nat): (page: nat)
    requires pageIndex < PageCount
    ensures page < PageCount
  {
    if steps == 0 then pageIndex
    else
      var next := SwipeForward(pageIndex, steps - 1);
      After(next).value
  }

  /** Forward swipes go round the ring: every `PageCount` swipes bring the
      pager back to where it started. */
  lemma {:induction false} SwipeForwardIsRing(pageIndex: nat, steps: nat)
    requires pageIndex < PageCount
    ensures SwipeForward(pageIndex, steps) == (pageIndex + steps) % PageCount
  {
    if steps > 0 {
      SwipeForwardIsRing(pageIndex, steps - 1);
    }
  }

  /** The page `setPage` shows for a requested index: pages 1 ... 4 as
      asked, the first page for anything else. */
  function TargetPage(index: int): (page: nat)
    ensures page < PageCount
    ensures page == index <==> 0 <= index < PageCount
    ensures !(0 <= index < PageCount) ==> page == 0
  {
    match index
    case 1 => 1
    case 2 => 2
    case 3 => 3
    case 4 => 4
    case _ => 0
  }

  /** Going to a lower page slides backwards, anything else forwards. */
  function DirectionTo(target: nat, current: nat): (d: NavigationDirection)
    ensures d == Reverse <==> target < current
  {
    if target < current then Reverse else Forward
  }

  class HomePageViewController {
    /** Index of the page on screen (`viewControllers.first`). */
    var currentPage: nat
    /** Whether a `homePageDelegate` is set. */
    var hasDelegate: bool
    /** Every `setViewControllers` call, in order. */
    var transitions: seq<Transition>
    /** Every `didPageChange(index:)` sent to the delegate, in order. */
    var notifications: seq<nat>

    ghost predicate Valid()
      reads this
    {
      currentPage < PageCount
    }

    /** `viewDidLoad`: the first page, shown without animation. */
    constructor (hasDelegate: bool)
      ensures Valid() && currentPage == 0 && this.hasDelegate == hasDelegate
      ensures transitions == [Transition(0, Forward, false)] && notifications == []
    {
      currentPage := 0;
      this.hasDelegate := hasDelegate;
      transitions := [Transition(0, Forward, false)];
      notifications := [];
    }

    /** `setPage`: animate to the requested page, backwards when it lies
        before the current one. */
    method SetPage(index: int)
      requires Valid()
      modifies this`currentPage, this`transitions
      ensures Valid()
      ensures currentPage == TargetPage(index)
      ensures transitions == old(transitions) + [Transition(currentPage, DirectionTo(currentPage, old(currentPage)), true)]
    {
      var target := TargetPage(index);
      var direction := Forward;
      if target < currentPage {
        direction := Reverse;
      }
      transitions := transitions + [Transition(target, direction, true)];
      currentPage := target;
    }

    /** A page turn driven by the data source: the pager moves to the page
        after (or before) the current one. */
    method Swipe(forward: bool)
      requires Valid()
      modifies this`currentPage
      ensures Valid()
      ensures currentPage == if forward then After(old(currentPage)).value else Before(old(currentPage)).value
    {
      if forward {
        currentPage := After(currentPage).value;
      } else {
        currentPage := Before(currentPage).value;
      }
    }

    /** `didFinishAnimating`: tell the delegate the page now shown, only when
        the transition completed. */
    method DidFinishAnimating(completed: bool)
      modifies this`notifications
      ensures notifications == if completed && hasDelegate then old(notifications) + [currentPage] else old(notifications)
    {
      if !completed {
        return;
      }
      if hasDelegate {
        notifications := notifications + [currentPage];
      }
    }
  }
}
