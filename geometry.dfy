/** Plane geometry shared by the views: CGFloat values are modelled as exact
    `real`s, CGRect/CGSize/UIEdgeInsets as plain records. */
module Geometry {

  datatype Size = Size(width: real, height: real)

  datatype Rect = Rect(x: real, y: real, width: real, height: real)

  datatype Insets = Insets(top: real, left: real, bottom: real, right: real)

  /** `min(max(x, 0), 1)`: the clamp used by every progress computation. */
  function Clamp01(x: real): (r: real)
    ensures 0.0 <= r <= 1.0
    ensures 0.0 <= x <= 1.0 ==> r == x
    ensures x <= 0.0 ==> r == 0.0
    ensures x >= 1.0 ==> r == 1.0
  {
    if x < 0.0 then 0.0 else if x > 1.0 then 1.0 else x
  }

  function Abs(x: real): (r: real)
    ensures r >= 0.0
    ensures r == x || r == -x
  {
    if x < 0.0 then -x else x
  }

  /** `rect.inset(by: a).inset(by: b).width`: the insets are subtracted from the
      raw width and `CGRect.width` reports the standardized (absolute) width. */
  function InsetWidth(width: real, a: Insets, b: Insets): (r: real)
    ensures r >= 0.0
    ensures width >= a.left + a.right + b.left + b.right ==>
              r + a.left + a.right + b.left + b.right == width
  {
    Abs(width - (a.left + a.right) - (b.left + b.right))
  }

  /** A fraction of a non-negative length lies between 0 and that length. */
  lemma FractionOfLength(length: real, fraction: real)
    requires length >= 0.0 && 0.0 <= fraction <= 1.0
    ensures 0.0 <= length * fraction <= length
  {
    assert length * fraction <= length * 1.0 by {
      assert length * (1.0 - fraction) >= 0.0;
    }
  }

  /** Swift's `Int(x)`: the integer part, rounding toward zero. */
  function Truncate(x: real): (n: int)
    ensures x >= 0.0 ==> n >= 0 && n as real <= x < n as real + 1.0
    ensures x < 0.0 ==> n <= 0 && n as real - 1.0 < x <= n as real
  {
    if x >= 0.0 then x.Floor else -((-x).Floor)
  }
}
