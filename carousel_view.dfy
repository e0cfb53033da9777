/** A titled horizontal carousel of items (CarouselView.swift). Its scroll
    view's height is its width times an aspect ratio chosen by carousel
    size and horizontal size class. */
module CarouselView {
  import opened UIKit

  datatype CarouselSize = Large | Medium | Small

  /** An item to show: an image name and a price. */
  datatype CarouselViewItem = CarouselViewItem(imageName: string, price: int)

  /** An item view placed in the carousel's item stack. */
  datatype ItemView = ItemView(imageName: string, price: int)

  /** `aspectRatio(sizeClass:)`: taller carousels under a compact width;
      every class other than compact shares the regular row. */
  function AspectRatio(size: CarouselSize, sizeClass: SizeClass): (ratio: real)
    ensures 0.0 < ratio < 0.5
    ensures sizeClass == Compact ==> ratio >= 0.2
    ensures sizeClass != Compact ==> ratio <= 0.24
  {
    if sizeClass == Compact then
      match size
      case Large => 0.4
      case Medium => 0.3
      case _ => 0.2
    else
      match size
      case Large => 0.24
      case Medium => 0.2
      case _ => 0.15
  }

  /** Under a compact width every carousel size is taller than otherwise,
      and in each class larger sizes are taller. */
  lemma AspectRatioOrder(size: CarouselSize, other: SizeClass)
    requires other != Compact
    ensures AspectRatio(size, Compact) > AspectRatio(size, other) > 0.0
    ensures AspectRatio(Large, other) > AspectRatio(Medium, other) > AspectRatio(Small, other)
    ensures AspectRatio(Large, Compact) > AspectRatio(Medium, Compact) > AspectRatio(Small, Compact)
    ensures AspectRatio(size, other) == AspectRatio(size, Regular)
  {
  }

  /** The size class `layoutSubviews` asks for: regular only for a regular
      width, compact for everything else. */
  function LayoutSizeClass(horizontalSizeClass: SizeClass): (sizeClass: SizeClass)
    ensures sizeClass == Regular <==> horizontalSizeClass == Regular
    ensures sizeClass != Unspecified
  {
    if horizontalSizeClass == Regular then Regular else Compact
  }

  /** With an unspecified size class the ratio set up at creation (the
      regular row) differs from the one the next layout pass installs (the
      compact row); with a known size class the layout pass matches it. */
  lemma CallSitesDifferWhenUnspecified(size: CarouselSize, horizontalSizeClass: SizeClass)
    ensures horizontalSizeClass == Unspecified ==>
              AspectRatio(size, LayoutSizeClass(horizontalSizeClass)) > AspectRatio(size, Unspecified)
    ensures horizontalSizeClass != Unspecified ==>
              AspectRatio(size, LayoutSizeClass(horizontalSizeClass)) == AspectRatio(size, horizontalSizeClass)
  {
    AspectRatioOrder(size, Unspecified);
  }

  /** The item views for `items`, one each, in order. */
  function ItemViews(items: seq<CarouselViewItem>): (views: seq<ItemView>)
    ensures |views| == |items|
    ensures forall i :: 0 <= i < |items| ==> views[i] == ItemView(items[i].imageName, items[i].price)
  {
    seq(|items|, i requires 0 <= i < |items| => ItemView(items[i].imageName, items[i].price))
  }

  class CarouselView {
    const title: string
    const size: CarouselSize
    const carouselTag: int
    /** Multiplier of the scroll view's aspect constraint. */
    var aspectRatio: real
    /** The item stack's arranged views. */
    var itemViews: seq<ItemView>
    /** Whether a delegate is set. */
    var hasDelegate: bool
    /** `didTapDetailButton(carouselTag:)` calls to the delegate. */
    var detailTaps: seq<int>

    /** `init(title:size:tag:)`, with `setupLayout`'s aspect constraint. */
    constructor (title: string, size: CarouselSize, tag: int)
      ensures this.title == title && this.size == size && carouselTag == tag
      ensures aspectRatio == AspectRatio(size, Unspecified)
      ensures itemViews == [] && !hasDelegate && detailTaps == []
    {
      this.title := title;
      this.size := size;
      carouselTag := tag;
      aspectRatio := AspectRatio(size, Unspecified);
      itemViews := [];
      hasDelegate := false;
      detailTaps := [];
    }

    /** `layoutSubviews`: replace the aspect constraint for the current
        horizontal size class. */
    method LayoutSubviews(horizontalSizeClass: SizeClass)
      modifies this`aspectRatio
      ensures aspectRatio == AspectRatio(size, LayoutSizeClass(horizontalSizeClass))
    {
      var ratio: real;
      if horizontalSizeClass == Regular {
        ratio := AspectRatio(size, Regular);
      } else {
        ratio := AspectRatio(size, Compact);
      }
      aspectRatio := ratio;
    }

    /** `setItems`: one item view per item, appended in order. */
    method SetItems(items: seq<CarouselViewItem>)
      modifies this`itemViews
      ensures itemViews == old(itemViews) + ItemViews(items)
    {
      for i := 0 to |items|
        invariant itemViews == old(itemViews) + ItemViews(items[..i])
      {
        assert ItemViews(items[..i + 1]) == ItemViews(items[..i]) + [ItemView(items[i].imageName, items[i].price)];
        itemViews := itemViews + [ItemView(items[i].imageName, items[i].price)];
      }
      assert items[..|items|] == items;
    }

    /** The "see all" button: tell the delegate which carousel it was. */
    method DidTapDetailButton()
      modifies this`detailTaps
      ensures detailTaps == old(detailTaps) + (if hasDelegate then [carouselTag] else [])
    {
      if hasDelegate {
        detailTaps := detailTaps + [carouselTag];
      }
    }
  }
}
