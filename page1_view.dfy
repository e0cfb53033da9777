/** The first home page's content grid (Page1View.swift): up to six
    contents, two per group, in three groups. */
module Page1View {
  import opened UIKit

  /** Number of group stack views, each holding two contents. */
  const GroupCount: nat := 3
  const ContentsPerGroup: nat := 2
  const MaxPlaced: nat := 6

  /** A content view, by identity. */
  type ContentId = nat

  datatype Axis = Horizontal | Vertical

  /** A constraint activated when a content is placed: a left one pins the
      view to its group's left edge; a right one pins it to the right edge
      with the width of `leftView`, the group's first view. */
  datatype Pin = PinLeft(view: ContentId, group: nat) | PinRight(view: ContentId, group: nat, leftView: ContentId)

  function Min(a: int, b: int): int
  {
    if a <= b then a else b
  }

  /** The group a content at position `k` goes to, if any. */
  function GroupOf(k: nat): (g: Option<nat>)
    ensures g.Some? <==> k < MaxPlaced
    ensures g.Some? ==> g.value < GroupCount && ContentsPerGroup * g.value <= k < ContentsPerGroup * (g.value + 1)
  {
    var group := k / 2;
    if group < 3 then Some(group) else None
  }

  /** The contents group `g` holds, given all contents added so far. */
  function Slot(contents: seq<ContentId>, g: nat): seq<ContentId>
    requires g < GroupCount
  {
    var n := Min(|contents|, MaxPlaced);
    contents[Min(2 * g, n)..Min(2 * g + 2, n)]
  }

  /** The three groups, given all contents added so far. */
  function Groups(contents: seq<ContentId>): seq<seq<ContentId>>
  {
    [Slot(contents, 0), Slot(contents, 1), Slot(contents, 2)]
  }

  /** The constraint placing the content at position `k`. */
  function PinAt(contents: seq<ContentId>, k: nat): Pin
    requires k < |contents| && k < MaxPlaced
  {
    if k % 2 == 0 then PinLeft(contents[k], k / 2)
    else PinRight(contents[k], k / 2, contents[k - 1])
  }

  /** Each constraint placed is the one for the content at its position. */
  predicate PinsPlaced(pins: seq<Pin>, contents: seq<ContentId>)
  {
    forall k :: 0 <= k < |pins| ==> k < |contents| && k < MaxPlaced && pins[k] == PinAt(contents, k)
  }

  /** The groups hold the first six contents, in order, two each. */
  lemma GroupsHoldFirstSix(contents: seq<ContentId>)
    ensures var gs := Groups(contents);
            && |gs| == GroupCount
            && (forall g :: 0 <= g < GroupCount ==> |gs[g]| <= ContentsPerGroup)
            && gs[0] + gs[1] + gs[2] == contents[..Min(|contents|, MaxPlaced)]
  {
    var n := Min(|contents|, MaxPlaced);
    assert contents[..n] == contents[..Min(2, n)] + contents[Min(2, n)..Min(4, n)] + contents[Min(4, n)..n];
  }

  /** Each content among the first six lies in group `k / 2`; later ones
      lie in no group. */
  lemma PlacedInItsGroup(contents: seq<ContentId>, k: nat)
    requires k < |contents|
    ensures k < MaxPlaced ==> var g := GroupOf(k).value; Slot(contents, g)[k - 2 * g] == contents[k]
    ensures k >= MaxPlaced ==> GroupOf(k).None?
  {
  }

  class Page1View {
    /** Every content added, in order. */
    var contents: seq<ContentId>
    /** The arranged subviews of each group stack view. */
    var groups: seq<seq<ContentId>>
    /** The placement constraints activated, in order. */
    var pins: seq<Pin>
    var groupAxes: seq<Axis>
    var bannerHidden: bool

    ghost predicate Valid()
      reads this
    {
      && groups == Groups(contents)
      && |pins| == Min(|contents|, MaxPlaced)
      && PinsPlaced(pins, contents)
      && |groupAxes| == GroupCount
    }

    constructor ()
      ensures Valid() && contents == [] && pins == []
    {
      contents := [];
      groups := [[], [], []];
      pins := [];
      groupAxes := [Vertical, Vertical, Vertical];
      bannerHidden := false;
    }

    /** `addContent`: record the view and, while there is room, place it
        into the next free slot of the groups. */
    method AddContent(view: ContentId)
      requires Valid()
      modifies this`contents, this`groups, this`pins
      ensures Valid()
      ensures contents == old(contents) + [view]
      ensures pins == if |old(contents)| < MaxPlaced then old(pins) + [PinAt(contents, |old(contents)|)] else old(pins)
    {
      ghost var before := contents;
      contents := contents + [view];
      PinsKeep(before, contents, pins);
      var group := (|contents| - 1) / 2;
      var placement := GroupOf(|contents| - 1);
      if placement.None? {
        GroupsSettled(contents);
        return;
      }
      SlotGrows(before, view);
      assert groups[group] == Slot(before, group);
      groups := groups[group := groups[group] + [view]];
      assert groups == Groups(contents);
      var row := (|contents| - 1) % 2;
      var pin;
      if row == 0 {
        pin := PinLeft(view, group);
      } else {
        pin := PinRight(view, group, groups[group][0]);
      }
      assert pin == PinAt(contents, |before|);
      PinsAppend(pins, contents, pin);
      pins := pins + [pin];
    }

    /** `layoutForSizeClass`: side by side under a regular width, with the
        banner hidden; stacked otherwise, with the banner shown. */
    method LayoutForSizeClass(horizontalSizeClass: SizeClass)
      modifies this`groupAxes, this`bannerHidden
      ensures var axis := if horizontalSizeClass == Regular then Horizontal else Vertical;
              groupAxes == [axis, axis, axis]
      ensures bannerHidden <==> horizontalSizeClass == Regular
    {
      if horizontalSizeClass == Regular {
        groupAxes := [Horizontal, Horizontal, Horizontal];
        bannerHidden := true;
      } else {
        groupAxes := [Vertical, Vertical, Vertical];
        bannerHidden := false;
      }
    }
  }

  /** Appending the `k`-th content (k < 6) extends its own group by it and
      leaves the other groups as they were; an odd position finds its left
      neighbour at the head of that group. */
  lemma SlotGrows(before: seq<ContentId>, view: ContentId)
    requires |before| < MaxPlaced
    ensures var contents, group := before + [view], |before| / 2;
            && group < GroupCount
            && Groups(contents) == Groups(before)[group := Slot(before, group) + [view]]
            && (|before| % 2 == 1 ==> Slot(before, group)[0] == PinAt(contents, |before|).leftView)
  {
    var contents, group := before + [view], |before| / 2;
    OwnSlotGrows(before, view);
    forall g | 0 <= g < GroupCount && g != group
      ensures Slot(contents, g) == Slot(before, g)
    {
      OtherSlotKeeps(before, view, g);
    }
    assert Groups(contents) == [Slot(contents, 0), Slot(contents, 1), Slot(contents, 2)];
  }

  lemma OwnSlotGrows(before: seq<ContentId>, view: ContentId)
    requires |before| < MaxPlaced
    ensures var contents, group := before + [view], |before| / 2;
            && Slot(contents, group) == Slot(before, group) + [view]
            && (|before| % 2 == 1 ==> Slot(before, group)[0] == contents[|before| - 1])
  {
    var contents, group, m := before + [view], |before| / 2, |before| + 1;
    assert Slot(contents, group) == contents[2 * group..m];
    assert Slot(before, group) == before[2 * group..m - 1] == contents[2 * group..m - 1];
    assert contents[2 * group..m] == contents[2 * group..m - 1] + [view];
  }

  lemma OtherSlotKeeps(before: seq<ContentId>, view: ContentId, g: nat)
    requires |before| < MaxPlaced && g < GroupCount && g != |before| / 2
    ensures Slot(before + [view], g) == Slot(before, g)
  {
    var contents := before + [view];
    if g < |before| / 2 {
      assert Slot(contents, g) == contents[2 * g..2 * g + 2];
      assert Slot(before, g) == before[2 * g..2 * g + 2];
      assert before[2 * g..2 * g + 2] == contents[2 * g..2 * g + 2];
    } else {
      assert Slot(contents, g) == [] == Slot(before, g);
    }
  }

  /** Appending a content leaves the constraints already placed as they
      were. */
  lemma PinsKeep(before: seq<ContentId>, contents: seq<ContentId>, pins: seq<Pin>)
    requires |contents| == |before| + 1 && contents[..|before|] == before
    requires |pins| <= Min(|before|, MaxPlaced)
    requires PinsPlaced(pins, before)
    ensures PinsPlaced(pins, contents)
  {
    forall k | 0 <= k < |pins|
      ensures pins[k] == PinAt(contents, k)
    {
      assert contents[k] == before[k];
      if k % 2 == 1 {
        assert contents[k - 1] == before[k - 1];
      }
    }
  }

  /** Placing the constraint for the next position keeps every constraint
      the one for its position. */
  lemma PinsAppend(pins: seq<Pin>, contents: seq<ContentId>, pin: Pin)
    requires PinsPlaced(pins, contents)
    requires |pins| < |contents| && |pins| < MaxPlaced && pin == PinAt(contents, |pins|)
    ensures PinsPlaced(pins + [pin], contents)
  {
    var extended := pins + [pin];
    forall k | 0 <= k < |extended|
      ensures k < |contents| && k < MaxPlaced && extended[k] == PinAt(contents, k)
    {
      if k < |pins| {
        assert extended[k] == pins[k];
      }
    }
  }

  /** Contents beyond the sixth leave the groups as they were. */
  lemma GroupsSettled(contents: seq<ContentId>)
    requires |contents| > MaxPlaced
    ensures Groups(contents) == Groups(contents[..|contents| - 1])
  {
    var before := contents[..|contents| - 1];
    forall g | 0 <= g < GroupCount
      ensures Slot(contents, g) == Slot(before, g)
    {
      assert Slot(contents, g) == contents[2 * g..2 * g + 2];
      assert Slot(before, g) == before[2 * g..2 * g + 2];
      assert before[2 * g..2 * g + 2] == contents[2 * g..2 * g + 2];
    }
  }
}
