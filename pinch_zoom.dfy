/** Zoom direction and transition progress of a pinch gesture
    (UIPinchGestureRecognizer+Extension.swift). */
module PinchZoom {
  import opened Geometry

  datatype ZoomStatus = ZoomIn | ZoomOut

  /** Spreading the fingers (scale above 1) zooms in; anything else zooms out. */
  function ZoomStatusOf(scale: real): (z: ZoomStatus)
    ensures z == ZoomIn <==> scale > 1.0
  {
    if scale > 1.0 then ZoomIn else ZoomOut
  }

  /** Maps scale 1.0..2.0 (zooming in) or 1.0..0.5 (zooming out) onto 0..1. */
  function TransitionProgress(scale: real, zoomStatus: ZoomStatus): (p: real)
    ensures 0.0 <= p <= 1.0
    ensures zoomStatus == ZoomIn && 1.0 <= scale <= 2.0 ==> p == scale - 1.0
    ensures zoomStatus == ZoomOut && 0.5 <= scale <= 1.0 ==> p == (1.0 - scale) * 2.0
    ensures scale == 1.0 ==> p == 0.0
    ensures zoomStatus == ZoomIn ==> (scale >= 2.0 ==> p == 1.0) && (scale <= 1.0 ==> p == 0.0)
    ensures zoomStatus == ZoomOut ==> (scale <= 0.5 ==> p == 1.0) && (scale >= 1.0 ==> p == 0.0)
  {
    var progress := match zoomStatus
      case ZoomIn => scale - 1.0
      case ZoomOut => (1.0 - scale) * 2.0;
    Clamp01(progress)
  }

  /** Spreading further never lowers a zoom-in's progress; pinching further
      never lowers a zoom-out's. */
  lemma ProgressMonotone(s1: real, s2: real)
    requires s1 <= s2
    ensures TransitionProgress(s1, ZoomIn) <= TransitionProgress(s2, ZoomIn)
    ensures TransitionProgress(s1, ZoomOut) >= TransitionProgress(s2, ZoomOut)
  {
  }
}
