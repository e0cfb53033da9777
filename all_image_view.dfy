/** The image grid whose column count follows a pinch (AllImageView.swift). */
module AllImageView {
  import opened Geometry
  import opened UIKit
  import opened PinchZoom

  /** Margin left and right of the grid. */
  const HorizontalMargin: real := 16.0
  /** Cell height over cell width. */
  const CellAspectRatio: real := 1.2
  /** Height of the scroll handle. */
  const ScrollHandleHeight: real := 50.0

  /** Number of cells in a row: 2, 4, 8 or 16. */
  datatype CellHorizontalCount = Wide | Middle | Narrow | SuperNarrow {

    function RawValue(): (n: nat)
      ensures n in {2, 4, 8, 16}
    {
      match this
      case Wide => 2
      case Middle => 4
      case Narrow => 8
      case SuperNarrow => 16
    }

    /** Position on the scale 2 -> 4 -> 8 -> 16. */
    function Rank(): (k: nat)
      ensures k < 4
      ensures RawValue() == Power2(k + 1)
    {
      match this
      case Wide => 0
      case Middle => 1
      case Narrow => 2
      case SuperNarrow => 3
    }

    /** The count after one pinch: zooming in shows fewer, larger cells,
        zooming out more, smaller ones; a regular-width screen never goes
        down to 2 and a compact one never up to 16. */
    function Next(isZoom: bool, isRegularSize: bool): (r: CellHorizontalCount)
      ensures isZoom ==> r.RawValue() <= RawValue()
      ensures !isZoom ==> r.RawValue() >= RawValue()
      ensures r.Rank() - Rank() <= 1 && Rank() - r.Rank() <= 1
      ensures isRegularSize && r == Wide ==> this == Wide
      ensures !isRegularSize && r == SuperNarrow ==> this == SuperNarrow
    {
      match this
      case Wide => if isZoom then Wide else Middle
      case Middle =>
        if isRegularSize then (if isZoom then Middle else Narrow)
        else (if isZoom then Wide else Narrow)
      case Narrow =>
        if isRegularSize then (if isZoom then Middle else SuperNarrow)
        else (if isZoom then Middle else Narrow)
      case SuperNarrow => if isZoom then Narrow else SuperNarrow
    }
  }

  function Power2(k: nat): (n: nat)
    ensures n >= 1
  {
    if k == 0 then 1 else 2 * Power2(k - 1)
  }

  /** A pinch doubles the number of cells in a row, halves it or keeps it:
      the grid never jumps a level. */
  lemma NextDoublesOrHalves(c: CellHorizontalCount, isZoom: bool, isRegularSize: bool)
    ensures var next := c.Next(isZoom, isRegularSize).RawValue();
            next == c.RawValue() || next == 2 * c.RawValue() || 2 * next == c.RawValue()
  {
    var r := c.Next(isZoom, isRegularSize);
    var k, j := c.Rank(), r.Rank();
    assert Power2(k + 2) == 2 * Power2(k + 1);
    assert j > 0 ==> Power2(j + 1) == 2 * Power2(j);
  }

  /** The pinches that leave the count as it is: 2 under zoom-in, 16 under
      zoom-out, 8 under zoom-out on a compact screen and 4 under zoom-in on
      a regular one; every other pinch changes the count. */
  lemma FixedPoints(c: CellHorizontalCount, isZoom: bool, isRegularSize: bool)
    ensures c.Next(isZoom, isRegularSize) == c <==>
              (c == Wide && isZoom) || (c == SuperNarrow && !isZoom) ||
              (c == Narrow && !isZoom && !isRegularSize) || (c == Middle && isZoom && isRegularSize)
  {
  }

  /** A drag of the scroll handle to `locationY` (measured from the top of
      the safe area) over a track `trackHeight` long, as a fraction of the
      track. A zero-length track divides to +inf or -inf, clamped to 1 or 0. */
  function ScrollHandleRatio(locationY: real, trackHeight: real): (ratio: real)
    requires trackHeight != 0.0 || locationY != 0.0
    ensures 0.0 <= ratio <= 1.0
    ensures trackHeight > 0.0 && 0.0 <= locationY <= trackHeight ==> ratio * trackHeight == locationY
    ensures trackHeight > 0.0 && locationY >= trackHeight ==> ratio == 1.0
    ensures trackHeight > 0.0 && locationY <= 0.0 ==> ratio == 0.0
  {
    if trackHeight == 0.0 then (if locationY > 0.0 then 1.0 else 0.0)
    else Clamp01(locationY / trackHeight)
  }

  /** Interactive layout transition requests made to the collection view. */
  datatype TransitionCall = StartTransition | FinishTransition | CancelTransition

  class AllImageView {
    /** `traitCollection.horizontalSizeClass == .regular` */
    var isRegularWidth: bool
    var zoomingStatus: ZoomStatus
    var currentCellHorizontalCount: CellHorizontalCount
    var nextCellHorizontalCount: Option<CellHorizontalCount>
    /** `pinchGesture.isEnabled` */
    var pinchEnabled: bool
    /** Whether the collection view's layout is a transition layout. */
    var inTransition: bool
    /** `transitionLayout.transitionProgress` */
    var transitionProgress: real
    var transitionCalls: seq<TransitionCall>
    /** `collectionView.contentOffset.y` */
    var contentOffsetY: real

    constructor (isRegularWidth: bool)
      ensures this.isRegularWidth == isRegularWidth
      ensures zoomingStatus == ZoomIn && currentCellHorizontalCount == Middle
      ensures nextCellHorizontalCount == None && pinchEnabled && !inTransition
      ensures transitionCalls == [] && contentOffsetY == 0.0
    {
      this.isRegularWidth := isRegularWidth;
      zoomingStatus := ZoomIn;
      currentCellHorizontalCount := Middle;
      nextCellHorizontalCount := None;
      pinchEnabled := true;
      inTransition := false;
      transitionProgress := 0.0;
      transitionCalls := [];
      contentOffsetY := 0.0;
    }

    /** The size class changed: regular width shows 8 per row, otherwise 4. */
    method TraitCollectionDidChange(isRegularWidth: bool)
      modifies this`isRegularWidth, this`currentCellHorizontalCount
      ensures this.isRegularWidth == isRegularWidth
      ensures currentCellHorizontalCount == if isRegularWidth then Narrow else Middle
    {
      this.isRegularWidth := isRegularWidth;
      if isRegularWidth {
        currentCellHorizontalCount := Narrow;
      } else {
        currentCellHorizontalCount := Middle;
      }
    }

    /** The count the layout shows: the pending one during a pinch. */
    function DisplayedCount(): (c: CellHorizontalCount)
      reads this
      ensures nextCellHorizontalCount.None? ==> c == currentCellHorizontalCount
      ensures nextCellHorizontalCount.Some? ==> c == nextCellHorizontalCount.value
    {
      match nextCellHorizontalCount
      case Some(next) => next
      case None => currentCellHorizontalCount
    }

    /** `sizeForItemAt`: the displayed number of cells, with the two margins,
        fills the collection view's width; cells are 1.2 times as high as wide. */
    function SizeForItem(collectionViewWidth: real): (size: Size)
      reads this
      ensures size.width * (DisplayedCount().RawValue() as real) + 2.0 * HorizontalMargin == collectionViewWidth
      ensures size.height == CellAspectRatio * size.width
    {
      var cellWidth := (collectionViewWidth - HorizontalMargin * 2.0) / (DisplayedCount().RawValue() as real);
      Size(cellWidth, cellWidth * CellAspectRatio)
    }

    /** The pinch gesture handler. */
    method PinchGesture(state: GestureState, scale: real)
      modifies this`zoomingStatus, this`nextCellHorizontalCount, this`currentCellHorizontalCount
      modifies this`pinchEnabled, this`inTransition, this`transitionProgress, this`transitionCalls
      ensures isRegularWidth == old(isRegularWidth)
      ensures state == Began ==>
                && zoomingStatus == ZoomStatusOf(scale)
                && nextCellHorizontalCount
                     == Some(old(currentCellHorizontalCount).Next(zoomingStatus == ZoomIn, isRegularWidth))
                && currentCellHorizontalCount == old(currentCellHorizontalCount)
                && inTransition && transitionProgress == 0.0
                && transitionCalls == old(transitionCalls) + [StartTransition]
                && pinchEnabled == old(pinchEnabled)
      ensures state == Changed ==>
                && zoomingStatus == old(zoomingStatus)
                && nextCellHorizontalCount == old(nextCellHorizontalCount)
                && currentCellHorizontalCount == old(currentCellHorizontalCount)
                && inTransition == old(inTransition)
                && transitionProgress
                     == (if old(inTransition) then TransitionProgress(scale, zoomingStatus) else old(transitionProgress))
                && transitionCalls == old(transitionCalls)
                && pinchEnabled == old(pinchEnabled)
      ensures state == Ended && !old(inTransition) ==>
                && nextCellHorizontalCount == old(nextCellHorizontalCount)
                && currentCellHorizontalCount == old(currentCellHorizontalCount)
                && transitionCalls == old(transitionCalls)
                && pinchEnabled == old(pinchEnabled)
      ensures state == Ended && old(inTransition) ==>
                var commit := old(transitionProgress) > 0.5;
                && nextCellHorizontalCount == None
                && currentCellHorizontalCount
                     == (if commit && old(nextCellHorizontalCount).Some? then old(nextCellHorizontalCount).value
                         else old(currentCellHorizontalCount))
                && transitionCalls == old(transitionCalls) + [if commit then FinishTransition else CancelTransition]
                && !pinchEnabled
      ensures state == Ended || state == Cancelled || state == Other ==>
                && zoomingStatus == old(zoomingStatus)
                && inTransition == old(inTransition)
                && transitionProgress == old(transitionProgress)
      ensures state == Cancelled || state == Other ==>
                && nextCellHorizontalCount == old(nextCellHorizontalCount)
                && currentCellHorizontalCount == old(currentCellHorizontalCount)
                && transitionCalls == old(transitionCalls)
                && pinchEnabled == old(pinchEnabled)
    {
      match state {
        case Began =>
          zoomingStatus := ZoomStatusOf(scale);
          if isRegularWidth {
            nextCellHorizontalCount := Some(currentCellHorizontalCount.Next(zoomingStatus == ZoomIn, true));
          } else {
            nextCellHorizontalCount := Some(currentCellHorizontalCount.Next(zoomingStatus == ZoomIn, false));
          }
          inTransition := true;
          transitionProgress := 0.0;
          transitionCalls := transitionCalls + [StartTransition];
        case Changed =>
          if !inTransition {
            return;
          }
          transitionProgress := TransitionProgress(scale, zoomingStatus);
        case Ended =>
          if !inTransition {
            return;
          }
          if transitionProgress > 0.5 {
            transitionCalls := transitionCalls + [FinishTransition];
            if nextCellHorizontalCount.Some? {
              currentCellHorizontalCount := nextCellHorizontalCount.value;
              nextCellHorizontalCount := None;
            }
          } else {
            nextCellHorizontalCount := None;
            transitionCalls := transitionCalls + [CancelTransition];
          }
          pinchEnabled := false;
        case Cancelled =>
        case Other =>
      }
    }

    /** Completion of the interactive transition: the gesture is enabled
        again and no count is pending. */
    method TransitionDidComplete()
      modifies this`pinchEnabled, this`nextCellHorizontalCount, this`inTransition
      ensures pinchEnabled && nextCellHorizontalCount == None && !inTransition
    {
      pinchEnabled := true;
      nextCellHorizontalCount := None;
      inTransition := false;
    }

    /** `touchesMoved` on the scroll handle: the content is scrolled by the
        handle's position as a fraction of the scrollable height. */
    method ScrollHandleMoved(touchY: real, boundsHeight: real, safeTop: real, safeBottom: real,
                             contentHeight: real)
      requires boundsHeight - safeTop - ScrollHandleHeight - safeBottom != 0.0 || touchY - safeTop != 0.0
      modifies this`contentOffsetY
      ensures var scrollSize := contentHeight - boundsHeight + safeTop + safeBottom;
              var ratio := ScrollHandleRatio(touchY - safeTop, boundsHeight - safeTop - ScrollHandleHeight - safeBottom);
              && contentOffsetY == scrollSize * ratio
              && (scrollSize >= 0.0 ==> 0.0 <= contentOffsetY <= scrollSize)
    {
      var locationY := touchY - safeTop;
      var viewSize := boundsHeight - safeTop - ScrollHandleHeight - safeBottom;
      var ratio := ScrollHandleRatio(locationY, viewSize);
      var scrollSize := contentHeight - boundsHeight + safeTop + safeBottom;
      contentOffsetY := scrollSize * ratio;
      if scrollSize >= 0.0 {
        FractionOfLength(scrollSize, ratio);
      }
    }
  }

  /** Worked example. One complete pinch that zooms in past half-way on a compact screen:
      the count goes from 4 to 2, and the gesture is off until the
      transition completes. */
  method PinchScenario()
  {
    var v := new AllImageView(false);
    v.PinchGesture(Began, 1.2);
    assert v.nextCellHorizontalCount == Some(Wide);
    assert v.SizeForItem(360.0).width == 164.0;
    v.PinchGesture(Changed, 1.7);
    v.PinchGesture(Ended, 1.7);
    assert v.currentCellHorizontalCount == Wide && !v.pinchEnabled;
    v.TransitionDidComplete();
    assert v.pinchEnabled && v.DisplayedCount() == Wide;
  }
}
