/** The fourth home page: a sectioned collection view whose cells share
    the width evenly (Page4ViewController.swift). */
module Page4 {
  import opened Geometry
  import opened FlowLayout

  const SectionSideMargin: real := 20.0
  const SectionTopMargin: real := 4.0
  const SectionBottomMargin: real := 4.0
  const MinimumInteritemSpacing: real := 2.0
  const MinimumLineSpacing: real := 2.0
  const HeaderHeight: real := 60.0
  const CellMinimumWidth: real := 200.0
  const CellHeight: real := 50.0

  /** The section insets the page gives its layout. */
  const PageSectionInset: Insets := Insets(SectionTopMargin, SectionSideMargin, SectionBottomMargin, SectionSideMargin)

  /** The four seasons and their lines, one section each. */
  const TextList: seq<(string, seq<string>)> := [
    ("春", ["春は曙、", "やうやう白くなりゆく山際すこしあかりて、", "紫だちたる雲の細くたなびきたる。"]),
    ("夏", ["夏は夜、", "月の頃はさらなり、", "闇もなほ螢飛びちがひたる、", "雨などの降るさへをかし。"]),
    ("秋", ["秋は夕暮、", "夕日はなやかにさして、", "山の端(は)いと近くなりたるに、", "烏のねどころへ行くとて、",
           "三つ四つ二つなど飛びゆくさへあはれなり。", "まいて雁などのつらねたるが、", "いとちひさく見ゆる、",
           "いとをかし。", "日入りはてて、", "風の音、", "蟲の音など、", "いとあはれなり。"]),
    ("冬", ["冬はつとめて。", "雪の降りたるは、", "いふべきにもあらず。", "霜などのいと白きも、",
           "またさらでもいと寒きに、", "火など急ぎおこして、", "炭持てわたるも、", "いとつきづきし。",
           "昼になりて、", "ぬるくゆるびもていけば、", "炭櫃(すびつ)・火桶の火も、", "白き灰がちになりぬるはわろし。"])
  ]

  /** `numberOfSections(in:)`. */
  function NumberOfSections(): (n: nat)
    ensures n == |TextList| == 4
  {
    |TextList|
  }

  /** `numberOfItemsInSection`: the number of lines of that season. */
  function NumberOfItems(section: nat): (n: nat)
    requires section < NumberOfSections()
    ensures n == |TextList[section].1|
    ensures n == [3, 4, 12, 12][section]
  {
    |TextList[section].1|
  }

  /** Item counts of all sections, as the collection view reports them. */
  function ItemCounts(): (counts: seq<nat>)
    ensures |counts| == NumberOfSections()
    ensures forall section :: 0 <= section < |counts| ==> counts[section] == NumberOfItems(section)
  {
    [NumberOfItems(0), NumberOfItems(1), NumberOfItems(2), NumberOfItems(3)]
  }

  /** Columns of cells at least `CellMinimumWidth` wide that fit in
      `availableWidth`; a truncated count of 0 becomes 1. */
  function ColumnCount(availableWidth: real): (column: int)
    ensures availableWidth >= 0.0 ==> column >= 1
    ensures column != 0
    ensures availableWidth >= CellMinimumWidth ==>
              && column as real * CellMinimumWidth + (column as real - 1.0) * MinimumInteritemSpacing <= availableWidth
              && availableWidth < (column as real + 1.0) * CellMinimumWidth + column as real * MinimumInteritemSpacing
  {
    var column := Truncate((availableWidth + MinimumInteritemSpacing) / (CellMinimumWidth + MinimumInteritemSpacing));
    ColumnsFittingMeaning(availableWidth, CellMinimumWidth, MinimumInteritemSpacing);
    if column == 0 then 1 else column
  }

  /** Width of each of `column` cells so that they and the spacing between
      them fill `availableWidth` exactly. */
  function CellWidth(availableWidth: real, column: int): (width: real)
    requires column != 0
    ensures column as real * width + MinimumInteritemSpacing * (column as real - 1.0) == availableWidth
  {
    (availableWidth - MinimumInteritemSpacing * (column - 1) as real) / column as real
  }

  /** The columns the page computes leave every cell at least the minimum
      width whenever the available width allows one such cell. */
  lemma CellsAreWideEnough(availableWidth: real)
    requires availableWidth >= CellMinimumWidth
    ensures CellWidth(availableWidth, ColumnCount(availableWidth)) >= CellMinimumWidth
  {
    var c := ColumnCount(availableWidth);
    var w := CellWidth(availableWidth, c);
    assert c as real * w >= c as real * CellMinimumWidth;
    ScaleInverse(w, CellMinimumWidth, c as real);
  }

  lemma ScaleInverse(a: real, b: real, c: real)
    requires c > 0.0 && c * a >= c * b
    ensures a >= b
  {
    if a < b {
      ScaleStrict(a, b, c);
    }
  }

  /** The layout's own column formula, given the cell width the page
      computed, finds the page's column count again. */
  lemma {:induction false} LayoutAgreesOnColumns(availableWidth: real)
    requires availableWidth >= 0.0
    ensures var column := ColumnCount(availableWidth);
            var width := CellWidth(availableWidth, column);
            && width + MinimumInteritemSpacing > 0.0
            && ColumnsFitting(availableWidth, width, MinimumInteritemSpacing) == column
  {
    var c := ColumnCount(availableWidth);
    var w := CellWidth(availableWidth, c);
    var cr := c as real;
    assert cr * (w + MinimumInteritemSpacing) == availableWidth + MinimumInteritemSpacing;
    assert w + MinimumInteritemSpacing == (availableWidth + MinimumInteritemSpacing) / cr;
    assert (availableWidth + MinimumInteritemSpacing) / (w + MinimumInteritemSpacing) == cr;
    assert Truncate(cr) == c;
  }

  class Page4ViewController {
    const layout: CustomFlowLayout
    const collectionView: CollectionView

    /** The page's layout settings and the collection view it lays out. */
    ghost predicate Valid()
      reads this, layout
    {
      && layout.collectionView == collectionView
      && layout.minimumInteritemSpacing == MinimumInteritemSpacing
      && layout.minimumLineSpacing == MinimumLineSpacing
      && layout.sectionInset == PageSectionInset
    }

    /** `viewDidLoad`: the collection view with the page's data and the
        layout settings of `layoutViews`. */
    constructor (layoutMargins: Insets)
      ensures Valid() && fresh(layout) && fresh(collectionView)
      ensures collectionView.itemCounts == ItemCounts() && collectionView.layoutMargins == layoutMargins
    {
      var l := new CustomFlowLayout();
      var cv := new CollectionView(0.0, layoutMargins, ItemCounts());
      l.collectionView := cv;
      l.minimumInteritemSpacing := MinimumInteritemSpacing;
      l.minimumLineSpacing := MinimumLineSpacing;
      l.sectionInset := PageSectionInset;
      layout := l;
      collectionView := cv;
    }

    /** `updateLayout`: fit the collection view into the safe area, then
        size the cells so that whole columns fill the width, and size the
        header to the view. */
    method UpdateLayout(viewBoundsWidth: real, safeAreaInsets: Insets, viewFrameWidth: real)
      requires Valid()
      modifies collectionView`width, layout`itemSize, layout`headerReferenceSize
      ensures Valid()
      ensures collectionView.width == InsetWidth(viewBoundsWidth, safeAreaInsets, Insets(0.0, 0.0, 0.0, 0.0))
      ensures var column := ColumnCount(layout.AvailableWidth());
              && layout.itemSize == Size(CellWidth(layout.AvailableWidth(), column), CellHeight)
              && layout.NumberOfColumns() == column >= 1
      ensures layout.headerReferenceSize == Size(viewFrameWidth, HeaderHeight)
    {
      collectionView.width := InsetWidth(viewBoundsWidth, safeAreaInsets, Insets(0.0, 0.0, 0.0, 0.0));
      var availableWidth := InsetWidth(collectionView.width, collectionView.layoutMargins, layout.sectionInset);
      var column := Truncate((availableWidth + MinimumInteritemSpacing) / (CellMinimumWidth + MinimumInteritemSpacing));
      if column == 0 {
        column := 1;
      }
      var cellWidth := (availableWidth - (MinimumInteritemSpacing * (column - 1) as real)) / column as real;
      layout.itemSize := Size(cellWidth, CellHeight);
      layout.headerReferenceSize := Size(viewFrameWidth, HeaderHeight);
      LayoutAgreesOnColumns(availableWidth);
    }
  }
}
