/** A flow layout that draws a rounded frame behind every section
    (CustomFlowLayout.swift). */
module FlowLayout {
  import opened Geometry
  import opened UIKit

  /** Kind identifier of the section-frame decoration view. */
  const SectionFrameKind: string := "kindSectionFrame"
  /** The decoration is drawn behind the cells. */
  const DecorationZIndex: int := -2

  /** What the layout reads from its collection view. */
  class CollectionView {
    /** Frame and bounds width. */
    var width: real
    var layoutMargins: Insets
    /** `numberOfItems(inSection:)` for every section. */
    var itemCounts: seq<nat>

    constructor (width: real, layoutMargins: Insets, itemCounts: seq<nat>)
      ensures this.width == width && this.layoutMargins == layoutMargins && this.itemCounts == itemCounts
    {
      this.width := width;
      this.layoutMargins := layoutMargins;
      this.itemCounts := itemCounts;
    }
  }

  datatype ElementCategory = Cell | SupplementaryView(kind: string) | DecorationView(kind: string)

  /** UICollectionViewLayoutAttributes: index path, category, frame, z-index. */
  datatype LayoutAttributes = LayoutAttributes(section: nat, item: nat, category: ElementCategory, frame: Rect, zIndex: int)

  /** Columns of items `itemWidth` wide, `spacing` apart, that fit in
      `availableWidth`: `Int((available + spacing) / (itemWidth + spacing))`,
      at least 1. */
  function ColumnsFitting(availableWidth: real, itemWidth: real, spacing: real): (columns: int)
    requires itemWidth + spacing != 0.0
    ensures columns >= 1
    ensures itemWidth + spacing > 0.0 && availableWidth >= itemWidth ==>
              && columns as real * itemWidth + (columns as real - 1.0) * spacing <= availableWidth
              && availableWidth < (columns as real + 1.0) * itemWidth + columns as real * spacing
    ensures itemWidth + spacing > 0.0 && availableWidth < itemWidth ==> columns == 1
  {
    var n := Truncate((availableWidth + spacing) / (itemWidth + spacing));
    ColumnsFittingMeaning(availableWidth, itemWidth, spacing);
    if n > 0 then n else 1
  }

  lemma ColumnsFittingMeaning(availableWidth: real, itemWidth: real, spacing: real)
    requires itemWidth + spacing != 0.0
    ensures var q := (availableWidth + spacing) / (itemWidth + spacing);
            var n := Truncate(q);
            itemWidth + spacing > 0.0 ==>
              && (availableWidth >= itemWidth ==>
                    && n >= 1
                    && n as real * itemWidth + (n as real - 1.0) * spacing <= availableWidth
                    && availableWidth < (n as real + 1.0) * itemWidth + n as real * spacing)
              && (availableWidth < itemWidth ==> n <= 0)
  {
    var d := itemWidth + spacing;
    var q := (availableWidth + spacing) / d;
    var n := Truncate(q);
    if d > 0.0 {
      assert q * d == availableWidth + spacing;
      if availableWidth >= itemWidth {
        if q < 1.0 {
          ScaleStrict(q, 1.0, d);
        }
        FitBounds(availableWidth, itemWidth, spacing, q, n as real);
      } else if q >= 1.0 {
        ScaleWeak(1.0, q, d);
      }
    }
  }

  /** `m` columns fit and `m + 1` do not when `m` is the whole part of
      `(available + spacing) / (width + spacing)`. */
  lemma FitBounds(availableWidth: real, itemWidth: real, spacing: real, q: real, m: real)
    requires itemWidth + spacing > 0.0
    requires q * (itemWidth + spacing) == availableWidth + spacing
    requires m <= q < m + 1.0
    ensures m * itemWidth + (m - 1.0) * spacing <= availableWidth
    ensures availableWidth < (m + 1.0) * itemWidth + m * spacing
  {
    ProductBounds(m, q, itemWidth, spacing);
    Expand(q, itemWidth, spacing);
    Shift(m, spacing);
    Shift(m, itemWidth);
  }

  /** `m <= q < m + 1` scaled by a positive `width + spacing`, multiplied out. */
  lemma ProductBounds(m: real, q: real, itemWidth: real, spacing: real)
    requires m <= q < m + 1.0 && itemWidth + spacing > 0.0
    ensures m * itemWidth + m * spacing <= q * itemWidth + q * spacing
    ensures q * itemWidth + q * spacing < m * itemWidth + m * spacing + itemWidth + spacing
  {
    var below, above, width := q - m, m + 1.0 - q, itemWidth + spacing;
    SignOfProduct(below, width);
    SignOfProduct(above, width);
    assert below * width == q * itemWidth + q * spacing - m * itemWidth - m * spacing;
    assert above * width == m * itemWidth + m * spacing + itemWidth + spacing - q * itemWidth - q * spacing;
  }

  lemma Expand(a: real, b: real, c: real)
    ensures a * (b + c) == a * b + a * c
  {
  }

  lemma Shift(m: real, b: real)
    ensures (m - 1.0) * b == m * b - b
    ensures (m + 1.0) * b == m * b + b
  {
  }

  /** A non-negative (positive) factor times a positive one is non-negative
      (positive). */
  lemma SignOfProduct(a: real, b: real)
    requires a >= 0.0 && b > 0.0
    ensures a * b >= 0.0
    ensures a > 0.0 ==> a * b > 0.0
  {
  }

  lemma ScaleStrict(a: real, b: real, d: real)
    requires a < b && d > 0.0
    ensures a * d < b * d
  {
    assert b * d - a * d == (b - a) * d;
  }

  lemma ScaleWeak(a: real, b: real, d: real)
    requires a <= b && d > 0.0
    ensures a * d <= b * d
  {
    assert b * d - a * d == (b - a) * d;
  }

  /** Rows needed for `items` items in rows of `columns`:
      `ceil(items / columns)`. */
  function RowCount(items: nat, columns: nat): (rows: nat)
    requires columns >= 1
    ensures rows * columns >= items
    ensures rows == 0 || (rows - 1) * columns < items
  {
    var rows := (items + columns - 1) / columns;
    assert rows * columns + (items + columns - 1) % columns == items + columns - 1;
    rows
  }

  class CustomFlowLayout {
    var collectionView: CollectionView?
    var itemSize: Size
    var minimumInteritemSpacing: real
    var minimumLineSpacing: real
    var sectionInset: Insets
    var headerReferenceSize: Size
    var footerReferenceSize: Size
    /** Frame of every section, computed by `prepare`. */
    var sectionFrames: seq<Rect>

    /** UICollectionViewFlowLayout's defaults, not yet attached to a view. */
    constructor ()
      ensures collectionView == null && sectionFrames == []
      ensures itemSize == Size(50.0, 50.0)
      ensures minimumInteritemSpacing == 10.0 && minimumLineSpacing == 10.0
      ensures sectionInset == Insets(0.0, 0.0, 0.0, 0.0)
      ensures headerReferenceSize == Size(0.0, 0.0) && footerReferenceSize == Size(0.0, 0.0)
    {
      collectionView := null;
      itemSize := Size(50.0, 50.0);
      minimumInteritemSpacing := 10.0;
      minimumLineSpacing := 10.0;
      sectionInset := Insets(0.0, 0.0, 0.0, 0.0);
      headerReferenceSize := Size(0.0, 0.0);
      footerReferenceSize := Size(0.0, 0.0);
      sectionFrames := [];
    }

    /** Width left for items: the collection view's bounds minus its layout
        margins and the section insets. */
    function AvailableWidth(): (w: real)
      reads this, collectionView
      requires collectionView != null
      ensures w >= 0.0
    {
      InsetWidth(collectionView.width, collectionView.layoutMargins, sectionInset)
    }

    /** Number of item columns; 0 when no collection view is attached.
        `Int` of an infinite quotient traps, so an item width plus spacing of
        zero is excluded. */
    function NumberOfColumns(): (columns: int)
      reads this, collectionView
      requires collectionView != null ==> itemSize.width + minimumInteritemSpacing != 0.0
      ensures collectionView == null ==> columns == 0
      ensures collectionView != null ==> columns >= 1
      ensures collectionView != null ==>
                columns == ColumnsFitting(AvailableWidth(), itemSize.width, minimumInteritemSpacing)
    {
      if collectionView == null then 0
      else ColumnsFitting(AvailableWidth(), itemSize.width, minimumInteritemSpacing)
    }

    /** Height of a section of `items` items laid out in `columns` columns:
        the rows with the inter-item spacing between them, the section insets,
        the header and the footer. */
    function SectionHeight(items: nat, columns: nat): real
      reads this`itemSize, this`minimumInteritemSpacing, this`sectionInset, this`headerReferenceSize, this`footerReferenceSize
      requires columns >= 1
    {
      var rows := RowCount(items, columns);
      rows as real * itemSize.height
        + minimumInteritemSpacing * (rows - 1) as real
        + sectionInset.top + sectionInset.bottom
        + headerReferenceSize.height + footerReferenceSize.height
    }

    /** Frames stacked top to bottom from y = 0, one per section of
        `counts`, each `width` wide and as tall as its section. */
    predicate Stacked(frames: seq<Rect>, width: real, counts: seq<nat>, columns: nat)
      reads this`itemSize, this`minimumInteritemSpacing, this`sectionInset, this`headerReferenceSize, this`footerReferenceSize
      requires columns >= 1
      decreases |frames|
    {
      && |frames| == |counts|
      && (frames != [] ==>
            var n := |frames| - 1;
            && Stacked(frames[..n], width, counts[..n], columns)
            && frames[n] == Rect(0.0, Bottom(frames[..n]), width, SectionHeight(counts[n], columns)))
    }

    /** Stacked frames are full width, as tall as their sections, the first
        at the top and each starting where the previous one ends. */
    lemma {:induction false} StackedFrames(frames: seq<Rect>, width: real, counts: seq<nat>, columns: nat)
      requires columns >= 1
      requires Stacked(frames, width, counts, columns)
      ensures |frames| == |counts|
      ensures forall i :: 0 <= i < |frames| ==>
                && frames[i].x == 0.0
                && frames[i].width == width
                && frames[i].height == SectionHeight(counts[i], columns)
      ensures |frames| > 0 ==> frames[0].y == 0.0
      ensures forall i :: 0 < i < |frames| ==> frames[i].y == frames[i - 1].y + frames[i - 1].height
      decreases |frames|
    {
      if frames != [] {
        var n := |frames| - 1;
        StackedFrames(frames[..n], width, counts[..n], columns);
        assert forall i :: 0 <= i < n ==> frames[..n][i] == frames[i];
      }
    }

    /** `prepare()`: one frame per section, stacked. */
    method Prepare()
      requires collectionView != null ==> itemSize.width + minimumInteritemSpacing != 0.0
      modifies this`sectionFrames
      ensures collectionView == null ==> sectionFrames == old(sectionFrames)
      ensures collectionView != null ==>
                Stacked(sectionFrames, collectionView.width, collectionView.itemCounts, NumberOfColumns())
    {
      if collectionView == null {
        return;
      }
      sectionFrames := [];
      var counts := collectionView.itemCounts;
      var width := collectionView.width;
      var columns := NumberOfColumns();
      var yPosition := 0.0;
      for section := 0 to |counts|
        invariant Stacked(sectionFrames, width, counts[..section], columns)
        invariant yPosition == Bottom(sectionFrames)
      {
        var height := SectionHeight(counts[section], columns);
        var frame := Rect(0.0, yPosition, width, height);
        assert (sectionFrames + [frame])[..section] == sectionFrames;
        assert counts[..section + 1][..section] == counts[..section];
        sectionFrames := sectionFrames + [frame];
        yPosition := yPosition + height;
      }
      assert counts[..|counts|] == counts;
    }

    /** The section-frame decoration of a section: its frame inset by the
        left/right section insets and moved below the header and top inset,
        behind the cells. Nothing for another kind or an unknown section. */
    function DecorationAttributes(kind: string, section: nat, item: nat): (r: Option<LayoutAttributes>)
      reads this
      ensures r.None? <==> section >= |sectionFrames| || kind != SectionFrameKind
      ensures r.Some? ==>
                var frame := sectionFrames[section];
                && r.value.section == section && r.value.item == item
                && r.value.category == DecorationView(SectionFrameKind)
                && r.value.zIndex == DecorationZIndex
                && r.value.frame.x == frame.x + sectionInset.left
                && r.value.frame.y == frame.y + headerReferenceSize.height + sectionInset.top
                && r.value.frame.width + sectionInset.left + sectionInset.right == frame.width
                && r.value.frame.height + headerReferenceSize.height + sectionInset.bottom == frame.height
    {
      if section >= |sectionFrames| then None
      else if kind == SectionFrameKind then
        var frame := sectionFrames[section];
        Some(LayoutAttributes(section, item, DecorationView(kind),
          Rect(frame.x + sectionInset.left,
               frame.y + headerReferenceSize.height + sectionInset.top,
               frame.width - (sectionInset.left + sectionInset.right),
               frame.height - headerReferenceSize.height - sectionInset.bottom),
          DecorationZIndex))
      else None
    }

    /** Decorations added for `attributes`, in order: for each attribute
        whose section has none yet, that section's decoration, if it has one. */
    function Decorations(attributes: seq<LayoutAttributes>): (decorations: seq<LayoutAttributes>)
      reads this
    {
      if attributes == [] then []
      else
        var earlier := Decorations(attributes[..|attributes| - 1]);
        var a := attributes[|attributes| - 1];
        if a.section in SectionsOf(earlier) then earlier
        else match DecorationAttributes(SectionFrameKind, a.section, a.item)
          case Some(d) => earlier + [d]
          case None => earlier
    }

    /** Sections of `attributes` for which a frame was prepared. */
    function FramedSections(attributes: seq<LayoutAttributes>): set<nat>
      reads this
    {
      set a | a in attributes && a.section < |sectionFrames| :: a.section
    }

    /** The decorations are one per section, for exactly the sections of
        `attributes` that have a frame, each the decoration of its section. */
    lemma {:induction false} DecorationsOnePerSection(attributes: seq<LayoutAttributes>)
      ensures var ds := Decorations(attributes);
              && SectionsOf(ds) == FramedSections(attributes)
              && (forall i, j :: 0 <= i < j < |ds| ==> ds[i].section != ds[j].section)
              && (forall d :: d in ds ==> Some(d) == DecorationAttributes(SectionFrameKind, d.section, d.item))
              && |ds| <= |attributes|
    {
      if attributes != [] {
        var prefix := attributes[..|attributes| - 1];
        var a := attributes[|attributes| - 1];
        DecorationsOnePerSection(prefix);
        FramedSectionsAppend(prefix, a);
        var earlier := Decorations(prefix);
        if a.section !in SectionsOf(earlier) {
          var attribute := DecorationAttributes(SectionFrameKind, a.section, a.item);
          if attribute.Some? {
            SectionsOfAppend(earlier, attribute.value);
          }
        }
      }
    }

    /** One more attribute adds its section to the framed ones when it has
        a frame. */
    lemma FramedSectionsAppend(prefix: seq<LayoutAttributes>, a: LayoutAttributes)
      ensures FramedSections(prefix + [a])
                == FramedSections(prefix) + (if a.section < |sectionFrames| then {a.section} else {})
    {
      var attributes := prefix + [a];
      assert forall b :: b in attributes <==> b in prefix || b == a;
    }

    /** `layoutAttributesForElements(in:)`: the flow layout's attributes
        followed by the section decorations they call for. */
    method LayoutAttributesForElements(all: Option<seq<LayoutAttributes>>)
      returns (r: Option<seq<LayoutAttributes>>)
      ensures all.None? ==> r.None?
      ensures all.Some? ==> r == Some(all.value + Decorations(all.value))
    {
      if all.None? {
        return None;
      }
      var allAttributes := all.value;
      var decorationAttributes: seq<LayoutAttributes> := [];
      var sectionIndexes: set<nat> := {};
      for k := 0 to |allAttributes|
        invariant decorationAttributes == Decorations(allAttributes[..k])
        invariant sectionIndexes == SectionsOf(decorationAttributes)
      {
        assert allAttributes[..k + 1][..k] == allAttributes[..k];
        var a := allAttributes[k];
        if a.section !in sectionIndexes {
          var attribute := DecorationAttributes(SectionFrameKind, a.section, a.item);
          if attribute.Some? {
            decorationAttributes := decorationAttributes + [attribute.value];
            sectionIndexes := sectionIndexes + {a.section};
          }
        }
      }
      assert allAttributes[..|allAttributes|] == allAttributes;
      return Some(allAttributes + decorationAttributes);
    }
  }

  /** Where the last of `frames` ends; 0 when there is none. */
  function Bottom(frames: seq<Rect>): real
  {
    if frames == [] then 0.0 else frames[|frames| - 1].y + frames[|frames| - 1].height
  }

  /** Sections of a list of attributes. */
  function SectionsOf(attributes: seq<LayoutAttributes>): set<nat>
  {
    set a | a in attributes :: a.section
  }

  /** Appending an attribute of a new section keeps the sections distinct
      and adds that one. */
  lemma SectionsOfAppend(ds: seq<LayoutAttributes>, d: LayoutAttributes)
    requires d.section !in SectionsOf(ds)
    requires forall i, j :: 0 <= i < j < |ds| ==> ds[i].section != ds[j].section
    ensures SectionsOf(ds + [d]) == SectionsOf(ds) + {d.section}
    ensures var extended := ds + [d];
            forall i, j :: 0 <= i < j < |extended| ==> extended[i].section != extended[j].section
  {
    var extended := ds + [d];
    assert forall b :: b in extended <==> b in ds || b == d;
    forall i, j | 0 <= i < j < |extended|
      ensures extended[i].section != extended[j].section
    {
      if j == |ds| {
        assert extended[i] in ds;
      }
    }
  }
}
