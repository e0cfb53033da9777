/** The strip of page buttons above the home pager (PageSwitchView.swift):
    it scrolls the selected button towards the middle and moves the
    indicator under it. Widths come from Auto Layout and are parameters. */
module PageSwitchView {
  /** Width of one page button. */
  const PageLabelWidth: real := 100.0

  /** Content offset that centres a strip `stackWidth` wide in a scroll
      view `scrollBoundsWidth` wide: the strip's middle lands on the
      view's middle, so a strip narrower than the view gets a negative
      offset. */
  function CenteringOffset(scrollBoundsWidth: real, stackWidth: real): (offsetX: real)
    ensures -offsetX + stackWidth / 2.0 == scrollBoundsWidth / 2.0
    ensures stackWidth < scrollBoundsWidth ==> offsetX < 0.0
  {
    -(scrollBoundsWidth / 2.0 - stackWidth / 2.0)
  }

  /** Scroll offset that brings page `index`'s button to the middle of a
      view `boundsWidth` wide, kept within the scrollable range. */
  function PageOffset(index: int, pageCount: nat, contentWidth: real, boundsWidth: real): (offsetX: real)
    requires pageCount > 0
    ensures offsetX <= contentWidth - boundsWidth
    ensures contentWidth >= boundsWidth ==> offsetX >= 0.0
    ensures var centered := PageCenter(index, pageCount, contentWidth) - boundsWidth / 2.0;
            0.0 <= centered <= contentWidth - boundsWidth ==> offsetX == centered
  {
    var offsetX := PageCenter(index, pageCount, contentWidth) - boundsWidth / 2.0;
    var offsetX := if offsetX >= 0.0 then offsetX else 0.0;
    if offsetX <= contentWidth - boundsWidth then offsetX else contentWidth - boundsWidth
  }

  /** Middle of page `index`'s button, from the content's left edge. */
  function PageCenter(index: int, pageCount: nat, contentWidth: real): (center: real)
    requires pageCount > 0
    ensures 2.0 * center * pageCount as real == (2 * index + 1) as real * contentWidth
    ensures 0 <= index < pageCount && contentWidth > 0.0 ==> 0.0 < center < contentWidth
  {
    var buttonWidth := contentWidth / pageCount as real;
    PageCenterWithin(index, pageCount, contentWidth);
    buttonWidth / 2.0 + buttonWidth * index as real
  }

  lemma PageCenterWithin(index: int, pageCount: nat, contentWidth: real)
    requires pageCount > 0
    ensures var b := contentWidth / pageCount as real;
            var center := b / 2.0 + b * index as real;
            && 2.0 * center * pageCount as real == (2 * index + 1) as real * contentWidth
            && (0 <= index < pageCount && contentWidth > 0.0 ==> 0.0 < center < contentWidth)
  {
    var n := pageCount as real;
    var b := contentWidth / n;
    var k := (2 * index + 1) as real;
    var center := b / 2.0 + b * index as real;
    assert b * n == contentWidth;
    assert 2.0 * center == k * b;
    assert 2.0 * center * n == k * (b * n);
    if 0 <= index < pageCount && contentWidth > 0.0 {
      assert b > 0.0;
      assert k * b < 2.0 * n * b by {
        assert 2.0 * n * b - k * b == (2.0 * n - k) * b;
      }
    }
  }

  /** Left edge of the indicator under page `index`. */
  function IndicatorX(index: int, pageCount: nat, contentWidth: real): (x: real)
    requires pageCount > 0
    ensures x * pageCount as real == index as real * contentWidth
    ensures 0 <= index < pageCount && contentWidth >= 0.0 ==> 0.0 <= x < contentWidth || x == contentWidth == 0.0
  {
    var buttonWidth := contentWidth / pageCount as real;
    IndicatorWithinContent(index, pageCount, contentWidth);
    index as real * buttonWidth
  }

  lemma IndicatorWithinContent(index: int, pageCount: nat, contentWidth: real)
    requires pageCount > 0
    ensures var x := index as real * (contentWidth / pageCount as real);
            && x * pageCount as real == index as real * contentWidth
            && (0 <= index < pageCount && contentWidth >= 0.0 ==> 0.0 <= x < contentWidth || x == contentWidth == 0.0)
  {
    var n := pageCount as real;
    var b := contentWidth / n;
    assert b * n == contentWidth;
    if 0 <= index < pageCount && contentWidth > 0.0 {
      assert b > 0.0;
      assert (index as real) * b < n * b by {
        assert n * b - index as real * b == (n - index as real) * b;
      }
    }
  }

  class PageSwitchView {
    const pageNames: seq<string>
    /** Selected page, -1 before any. */
    var currentIndex: int
    /** The scroll view's content width, its own width and this view's. */
    var contentWidth: real
    var scrollBoundsWidth: real
    var boundsWidth: real
    var contentOffsetX: real
    /** Constant of the indicator's left constraint. */
    var indicatorX: real

    function PageCount(): nat
    {
      |pageNames|
    }

    /** `init(pageNames:)`: one button per name, nothing selected. */
    constructor (pageNames: seq<string>)
      ensures this.pageNames == pageNames && currentIndex == -1
      ensures contentOffsetX == 0.0 && indicatorX == 0.0
    {
      this.pageNames := pageNames;
      currentIndex := -1;
      contentWidth := 0.0;
      scrollBoundsWidth := 0.0;
      boundsWidth := 0.0;
      contentOffsetX := 0.0;
      indicatorX := 0.0;
    }

    /** The result of an Auto Layout pass. */
    method SetGeometry(contentWidth: real, scrollBoundsWidth: real, boundsWidth: real)
      modifies this`contentWidth, this`scrollBoundsWidth, this`boundsWidth
      ensures this.contentWidth == contentWidth && this.scrollBoundsWidth == scrollBoundsWidth
      ensures this.boundsWidth == boundsWidth
    {
      this.contentWidth := contentWidth;
      this.scrollBoundsWidth := scrollBoundsWidth;
      this.boundsWidth := boundsWidth;
    }

    /** `updatePageIndex`: select page `index`, scroll its button towards
        the middle when the buttons do not fit, and move the indicator
        under it. An index past the last page changes nothing. With no
        pages, a negative index would divide by zero. */
    method UpdatePageIndex(index: int)
      requires index >= PageCount() || PageCount() > 0
      modifies this`currentIndex, this`contentOffsetX, this`indicatorX
      ensures index >= PageCount() ==>
                currentIndex == old(currentIndex) && contentOffsetX == old(contentOffsetX) && indicatorX == old(indicatorX)
      ensures index < PageCount() ==>
                && currentIndex == index
                && contentOffsetX == (if scrollBoundsWidth < contentWidth then PageOffset(index, PageCount(), contentWidth, boundsWidth)
                                      else old(contentOffsetX))
                && indicatorX == IndicatorX(index, PageCount(), contentWidth)
    {
      if !(index < |pageNames|) {
        return;
      }
      currentIndex := index;
      var buttonWidth := contentWidth / |pageNames| as real;
      if scrollBoundsWidth < contentWidth {
        var pageCenter := buttonWidth / 2.0 + buttonWidth * index as real;
        assert pageCenter == PageCenter(index, PageCount(), contentWidth);
        var viewCenter := boundsWidth / 2.0;
        var offsetX := pageCenter - viewCenter;
        offsetX := if offsetX >= 0.0 then offsetX else 0.0;
        offsetX := if offsetX <= contentWidth - boundsWidth then offsetX else contentWidth - boundsWidth;
        contentOffsetX := offsetX;
      }
      indicatorX := index as real * buttonWidth;
    }

    /** `layoutSubviews`: when this view is wider than the strip of
        buttons, centre the strip in the scroll view. */
    method LayoutSubviews()
      modifies this`contentOffsetX
      ensures var stackWidth := PageLabelWidth * PageCount() as real;
              contentOffsetX == if boundsWidth > stackWidth then CenteringOffset(scrollBoundsWidth, stackWidth)
                                else old(contentOffsetX)
    {
      var pageStackViewWidth := PageLabelWidth * |pageNames| as real;
      if boundsWidth > pageStackViewWidth {
        var offsetX := scrollBoundsWidth / 2.0 - pageStackViewWidth / 2.0;
        contentOffsetX := -offsetX;
      }
    }

    /** `updateLayoutWithCurrentIndex`: re-apply the selected page, if any. */
    method UpdateLayoutWithCurrentIndex()
      requires currentIndex != -1 ==> currentIndex >= PageCount() || PageCount() > 0
      modifies this`currentIndex, this`contentOffsetX, this`indicatorX
      ensures old(currentIndex) == -1 ==>
                currentIndex == -1 && contentOffsetX == old(contentOffsetX) && indicatorX == old(indicatorX)
      ensures old(currentIndex) >= PageCount() ==>
                currentIndex == old(currentIndex) && contentOffsetX == old(contentOffsetX) && indicatorX == old(indicatorX)
      ensures old(currentIndex) != -1 && old(currentIndex) < PageCount() ==>
                && currentIndex == old(currentIndex)
                && contentOffsetX == (if scrollBoundsWidth < contentWidth then PageOffset(currentIndex, PageCount(), contentWidth, boundsWidth)
                                      else old(contentOffsetX))
                && indicatorX == IndicatorX(currentIndex, PageCount(), contentWidth)
    {
      if currentIndex != -1 {
        UpdatePageIndex(currentIndex);
      }
    }
  }

  /** Worked example. Five 100-point buttons in a 320-point view: the
      middle page is centred, the first and last stop at the ends of the
      strip. Two buttons in the same view are centred by a negative
      offset. */
  method CenteringScenario()
  {
    var view := new PageSwitchView(["1", "2", "3", "4", "5"]);
    view.SetGeometry(500.0, 320.0, 320.0);
    view.UpdateLayoutWithCurrentIndex();
    assert view.currentIndex == -1;
    view.UpdatePageIndex(2);
    assert view.contentOffsetX == 90.0 && view.indicatorX == 200.0;
    view.UpdatePageIndex(0);
    assert view.contentOffsetX == 0.0;
    view.UpdatePageIndex(4);
    assert view.contentOffsetX == 180.0 && view.indicatorX == 400.0;
    view.UpdatePageIndex(5);
    assert view.currentIndex == 4;
    view.LayoutSubviews();
    assert view.contentOffsetX == 180.0;

    var narrow := new PageSwitchView(["1", "2"]);
    narrow.SetGeometry(200.0, 320.0, 320.0);
    narrow.LayoutSubviews();
    assert narrow.contentOffsetX == -60.0;
  }
}
